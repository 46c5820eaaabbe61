/** The adjacency dictionary shared by the UC4 graph and degree aggregates: per client, the
    neighbour sets of every node in memory and partial neighbour sets spilled to files sharded
    by a hash of the node. The two dictionaries of the source, one for predecessors and one for
    successors, always have the same keys and are one dictionary of pairs here. */
module GraphLedger {
  import opened Common
  import opened Spill
  import opened Uc4Graph

  const SHARDING_FILES := 500

  /** One spilled partial adjacency. */
  datatype Line = Line(node: Node, adjacency: Adjacency)

  const NO_NEIGHBOURS := Adjacency({}, {})

  function Join(a: Adjacency, b: Adjacency): Adjacency {
    Adjacency(a.preds + b.preds, a.succs + b.succs)
  }

  lemma JoinUnit(a: Adjacency)
    ensures Join(a, NO_NEIGHBOURS) == a == Join(NO_NEIGHBOURS, a)
  {}

  ghost predicate Within(a: Adjacency, b: Adjacency) {
    a.preds <= b.preds && a.succs <= b.succs
  }

  lemma WithinItself(a: Adjacency)
    ensures Within(a, a)
  {}

  lemma NothingWithin(a: Adjacency)
    ensures Within(NO_NEIGHBOURS, a)
  {}

  lemma WithinTwice(a: Adjacency, b: Adjacency, c: Adjacency)
    requires Within(a, b) && Within(b, c)
    ensures Within(a, c)
  {}

  lemma WithinParts(a: Adjacency, b: Adjacency, c: Adjacency)
    ensures Within(Join(a, b), c) <==> Within(a, c) && Within(b, c)
  {}

  lemma WithinJoin(a: Adjacency, b: Adjacency)
    ensures Within(a, b) <==> Join(b, a) == b
  {}

  lemma JoinSwap(a: Adjacency, b: Adjacency, c: Adjacency)
    ensures Join(Join(a, b), c) == Join(Join(a, c), b)
  {}

  /** Union of the neighbour sets found in a sequence of messages or lines. */
  ghost function JoinOf<T(!new)>(f: T -> Adjacency, s: seq<T>): Adjacency {
    if s == [] then NO_NEIGHBOURS else Join(JoinOf(f, s[..|s| - 1]), f(s[|s| - 1]))
  }

  lemma JoinOfSnoc<T(!new)>(f: T -> Adjacency, s: seq<T>, x: T)
    ensures JoinOf(f, s + [x]) == Join(JoinOf(f, s), f(x))
  {
    assert (s + [x])[..|s + [x]| - 1] == s;
  }

  lemma {:induction false} JoinOfConcat<T(!new)>(f: T -> Adjacency, s: seq<T>, t: seq<T>)
    ensures JoinOf(f, s + t) == Join(JoinOf(f, s), JoinOf(f, t))
  {
    if t == [] {
      assert s + t == s;
    } else {
      var n := |t| - 1;
      assert s + t == (s + t[..n]) + [t[n]];
      JoinOfConcat(f, s, t[..n]);
      JoinOfSnoc(f, s + t[..n], t[n]);
    }
  }

  lemma {:induction false} JoinOfNothing<T(!new)>(f: T -> Adjacency, s: seq<T>)
    requires forall x :: x in s ==> f(x) == NO_NEIGHBOURS
    ensures JoinOf(f, s) == NO_NEIGHBOURS
  {
    if s != [] {
      JoinOfNothing(f, s[..|s| - 1]);
    }
  }

  /** A neighbour is in the union exactly when some element contributes it. */
  lemma {:induction false} JoinOfMember<T(!new)>(f: T -> Adjacency, s: seq<T>, x: Node)
    ensures x in JoinOf(f, s).preds <==> exists e :: e in s && x in f(e).preds
    ensures x in JoinOf(f, s).succs <==> exists e :: e in s && x in f(e).succs
  {
    if s != [] {
      var n := |s| - 1;
      JoinOfMember(f, s[..n], x);
      assert s == s[..n] + [s[n]];
      assert forall e :: e in s <==> e in s[..n] || e == s[n];
    }
  }

  function AdjacencyAt(nodes: map<Node, Adjacency>, n: Node): Adjacency {
    if n in nodes then nodes[n] else NO_NEIGHBOURS
  }

  function NodesAt(graphs: map<ClientId, map<Node, Adjacency>>, client: ClientId): map<Node, Adjacency> {
    if client in graphs then graphs[client] else map[]
  }

  ghost function InGraph(n: Node): Graph -> Adjacency {
    (g: Graph) => AdjacencyAt(g.nodes, n)
  }

  ghost function InLine(n: Node): Line -> Adjacency {
    (line: Line) => if line.node == n then line.adjacency else NO_NEIGHBOURS
  }

  /** The neighbours of n over a sequence of graph messages. */
  ghost function Merged(graphs: seq<Graph>, n: Node): Adjacency {
    JoinOf(InGraph(n), graphs)
  }

  /** The neighbours of n over the lines of a file. */
  ghost function Filed(lines: seq<Line>, n: Node): Adjacency {
    JoinOf(InLine(n), lines)
  }

  lemma MergedSnoc(graphs: seq<Graph>, g: Graph, n: Node)
    ensures Merged(graphs + [g], n) == Join(Merged(graphs, n), AdjacencyAt(g.nodes, n))
  {
    JoinOfSnoc(InGraph(n), graphs, g);
  }

  lemma MergedConcat(a: seq<Graph>, b: seq<Graph>, n: Node)
    ensures Merged(a + b, n) == Join(Merged(a, n), Merged(b, n))
  {
    JoinOfConcat(InGraph(n), a, b);
  }

  /** More messages give no fewer neighbours. */
  lemma MergedWithin(a: seq<Graph>, b: seq<Graph>, n: Node)
    requires forall g :: g in a ==> g in b
    ensures Within(Merged(a, n), Merged(b, n))
  {
    forall x ensures x in Merged(a, n).preds ==> x in Merged(b, n).preds
             ensures x in Merged(a, n).succs ==> x in Merged(b, n).succs
    {
      JoinOfMember(InGraph(n), a, x);
      JoinOfMember(InGraph(n), b, x);
    }
  }

  lemma NoneMerged(client: ClientId)
    ensures Where(GraphsFrom(client), []) == [] && forall n :: Merged([], n) == NO_NEIGHBOURS
    ensures forall a :: Join(a, NO_NEIGHBOURS) == a
  {}

  lemma MergedOne(msgs: seq<Graph>, msg: Graph, client: ClientId, n: Node, start: Adjacency)
    ensures Join(start, Merged(Where(GraphsFrom(client), msgs + [msg]), n)) ==
            if msg.client == client
              then Join(Join(start, Merged(Where(GraphsFrom(client), msgs), n)), AdjacencyAt(msg.nodes, n))
            else Join(start, Merged(Where(GraphsFrom(client), msgs), n))
  {
    hide Merged, Where;
    GraphsOneMore(msgs, msg, client);
    MergedSnoc(Where(GraphsFrom(client), msgs), msg, n);
  }

  lemma KeptWithin(earlier: seq<Graph>, lost: seq<Graph>, n: Node, kept: Adjacency)
    requires Within(kept, Join(Merged(earlier, n), Merged(lost, n)))
    ensures Within(kept, Merged(earlier + lost, n))
  {
    hide Merged;
    MergedConcat(earlier, lost, n);
  }

  lemma ReplayedWith(earlier: seq<Graph>, lost: seq<Graph>, replay: seq<Graph>, client: ClientId, n: Node,
                     kept: Adjacency)
    requires Within(kept, Merged(earlier + Where(GraphsFrom(client), lost), n))
    ensures var now := Merged(earlier + Where(GraphsFrom(client), replay), n);
            && Join(Join(Merged(earlier, n), kept), Merged(Where(GraphsFrom(client), replay), n)) == Join(now, kept)
            && (Join(now, kept) == now <==> Within(kept, now))
            && ((forall m :: m in lost ==> m in replay) ==> Within(kept, now))
  {
    hide Merged, Where;
    MergedConcat(earlier, Where(GraphsFrom(client), replay), n);
    if forall m :: m in lost ==> m in replay {
      forall g | g in earlier + Where(GraphsFrom(client), lost) ensures g in earlier + Where(GraphsFrom(client), replay)
      {
        WhereMember(GraphsFrom(client), lost, g);
        WhereMember(GraphsFrom(client), replay, g);
      }
      MergedWithin(earlier + Where(GraphsFrom(client), lost), earlier + Where(GraphsFrom(client), replay), n);
    }
  }

  lemma FiledConcat(a: seq<Line>, b: seq<Line>, n: Node)
    ensures Filed(a + b, n) == Join(Filed(a, n), Filed(b, n))
  {
    JoinOfConcat(InLine(n), a, b);
  }

  lemma FiledSnoc(a: seq<Line>, line: Line, n: Node)
    ensures Filed(a + [line], n) == Join(Filed(a, n), if line.node == n then line.adjacency else NO_NEIGHBOURS)
  {
    JoinOfSnoc(InLine(n), a, line);
  }

  /** `by_shard[shard].append(line)`. */
  function AddLine(byShard: map<int, seq<Line>>, shard: int, line: Line): map<int, seq<Line>> {
    byShard[shard := SeqAt(byShard, shard) + [line]]
  }

  lemma AddLineFiled(byShard: map<int, seq<Line>>, shard: int, line: Line, s: int, n: Node)
    requires n == line.node ==> s == shard
    ensures Filed(SeqAt(AddLine(byShard, shard, line), s), n) ==
            Join(Filed(SeqAt(byShard, s), n), if n == line.node then line.adjacency else NO_NEIGHBOURS)
  {
    FiledSnoc(SeqAt(byShard, shard), line, n);
  }

  lemma FiledPrefix(a: seq<Line>, b: seq<Line>, n: Node)
    requires a <= b
    ensures Within(Filed(a, n), Filed(b, n))
  {
    FiledConcat(a, b[|a|..], n);
    assert b == a + b[|a|..];
  }

  lemma FiledNothing()
    ensures forall n :: Filed([], n) == NO_NEIGHBOURS
  {}

  lemma FiledAbsent(lines: seq<Line>, n: Node)
    requires forall line :: line in lines ==> line.node != n
    ensures Filed(lines, n) == NO_NEIGHBOURS
  {
    JoinOfNothing(InLine(n), lines);
  }

  class GraphLedger {
    var graphs: map<ClientId, map<Node, Adjacency>>
    const spill: MultiShardSpill<Line>
    const shardHash: Node -> int

    function Shard(n: Node): (s: int)
      ensures 0 <= s < SHARDING_FILES && (shardHash(n) - s) % SHARDING_FILES == 0
    {
      shardHash(n) % SHARDING_FILES
    }

    /** Neighbours held for a node of a client, in memory and on disk together. */
    ghost function Held(client: ClientId, n: Node): Adjacency
      reads this, spill
    {
      Join(AdjacencyAt(NodesAt(graphs, client), n), OnDisk(spill.files, client, n))
    }

    /** Neighbours written to the files. */
    ghost function OnDisk(files: map<Key, FileState<Line>>, client: ClientId, n: Node): Adjacency {
      Filed(FileAt(files, Key(client, Shard(n))).Content(), n)
    }

    ghost predicate HasNode(nodes: set<Node>, shard: int) {
      exists n :: n in nodes && Shard(n) == shard
    }

    /** Memory has a node of this shard. */
    ghost predicate InMemory(graphs: map<ClientId, map<Node, Adjacency>>, k: Key) {
      HasNode(NodesAt(graphs, k.client).Keys, k.shard)
    }

    ghost predicate InShard(shard: int, lines: seq<Line>) {
      forall line :: line in lines ==> Shard(line.node) == shard
    }

    ghost predicate Valid()
      reads this, spill
    {
      forall client, s :: InShard(s, spill.File(Key(client, s)))
    }

    constructor (spill: MultiShardSpill<Line>, shardHash: Node -> int)
      requires forall k :: spill.File(k) == []
      ensures Valid() && graphs == map[] && this.spill == spill && this.shardHash == shardHash
      ensures forall cl, n :: Held(cl, n) == NO_NEIGHBOURS
    {
      this.spill, this.shardHash := spill, shardHash;
      graphs := map[];
    }

    /** Installs a client's dictionary, which must extend the one it replaces. */
    method Store(client: ClientId, nodes: map<Node, Adjacency>)
      requires Valid()
      modifies this
      ensures Valid() && graphs == old(graphs)[client := nodes]
      ensures forall cl, n :: Held(cl, n) ==
                if cl == client then Join(AdjacencyAt(nodes, n), OnDisk(spill.files, cl, n)) else old(Held(cl, n))
    {
      graphs := graphs[client := nodes];
      assert forall cl :: NodesAt(graphs, cl) == if cl == client then nodes else NodesAt(old(graphs), cl);
    }

    /** Moves a client's dictionary to the spill files. */
    method SpillToDisk(client: ClientId)
      requires Valid() && client in graphs
      modifies this, spill
      ensures Valid() && graphs == old(graphs) - {client}
      ensures forall cl, n :: Held(cl, n) == old(Held(cl, n))
      ensures Grown(old(spill.files), spill.files)
      ensures forall k :: FileAt(spill.files, k).Open? <==>
                old(FileAt(spill.files, k)).Open? || (k.client == client && InMemory(old(graphs), k))
    {
      hide Filed, Grown, AllOnDisk, AppendedEach, FileAt, HasNode, FileState.Content, MultiShardSpill.Eager;
      var nodes := graphs[client];
      assert nodes == NodesAt(graphs, client);
      var byShard := BucketByShard(nodes);
      BucketedAll(nodes, byShard);
      spill.AppendShards(client, byShard);
      AppendedEachGrows(old(spill.files), ToShards(client, byShard), spill.files);
      graphs := graphs - {client};
      assert forall cl :: NodesAt(graphs, cl) == if cl == client then map[] else NodesAt(old(graphs), cl);
      forall cl, n ensures Held(cl, n) == old(Held(cl, n)) {
        var k := Key(cl, Shard(n));
        FiledConcat(old(spill.File(k)), SeqAt(byShard, k.shard), n);
        assert cl != client ==> spill.File(k) == old(spill.File(k));
      }
      forall cl, s ensures InShard(s, spill.File(Key(cl, s))) {
        assert InShard(s, old(spill.File(Key(cl, s))));
        assert cl != client ==> spill.File(Key(cl, s)) == old(spill.File(Key(cl, s)));
      }
    }

    method BucketByShard(nodes: map<Node, Adjacency>) returns (byShard: map<int, seq<Line>>)
      ensures Bucketed(nodes, {}, byShard)
    {
      hide Bucketed, Filed, HasNode;
      byShard := map[];
      var todo := nodes.Keys;
      BucketNothing(nodes);
      while todo != {}
        invariant todo <= nodes.Keys && Bucketed(nodes, todo, byShard)
        decreases |todo|
      {
        var n := Choose(todo);
        BucketStep(nodes, todo, byShard, n);
        byShard := AddLine(byShard, Shard(n), Line(n, nodes[n]));
        todo := todo - {n};
      }
    }

    /** Every node of the dictionary outside `todo` is in the bucket of its shard. */
    ghost predicate Bucketed(nodes: map<Node, Adjacency>, todo: set<Node>, byShard: map<int, seq<Line>>) {
      && (forall n :: Filed(SeqAt(byShard, Shard(n)), n) == if n in todo then NO_NEIGHBOURS else AdjacencyAt(nodes, n))
      && (forall s :: InShard(s, SeqAt(byShard, s)))
      && (forall s :: SeqAt(byShard, s) != [] <==> HasNode(nodes.Keys - todo, s))
    }

    lemma BucketNothing(nodes: map<Node, Adjacency>)
      ensures Bucketed(nodes, nodes.Keys, map[])
    {}

    lemma BucketedAll(nodes: map<Node, Adjacency>, byShard: map<int, seq<Line>>)
      requires Bucketed(nodes, {}, byShard)
      ensures forall n :: Filed(SeqAt(byShard, Shard(n)), n) == AdjacencyAt(nodes, n)
      ensures forall s :: InShard(s, SeqAt(byShard, s))
      ensures forall s :: SeqAt(byShard, s) != [] <==> HasNode(nodes.Keys, s)
    {
      hide Filed, HasNode;
      assert nodes.Keys - {} == nodes.Keys;
    }

    lemma BucketStep(nodes: map<Node, Adjacency>, todo: set<Node>, byShard: map<int, seq<Line>>, q: Node)
      requires Bucketed(nodes, todo, byShard) && q in todo && todo <= nodes.Keys
      ensures Bucketed(nodes, todo - {q}, AddLine(byShard, Shard(q), Line(q, nodes[q])))
    {
      hide Filed, HasNode, InShard;
      var after := AddLine(byShard, Shard(q), Line(q, nodes[q]));
      forall n
        ensures Filed(SeqAt(after, Shard(n)), n) == if n in todo - {q} then NO_NEIGHBOURS else AdjacencyAt(nodes, n)
      {
        AddLineFiled(byShard, Shard(q), Line(q, nodes[q]), Shard(n), n);
      }
      forall s ensures InShard(s, SeqAt(after, s)) {
        InShardMore(s, SeqAt(byShard, s), Line(q, nodes[q]));
      }
      forall s ensures SeqAt(after, s) != [] <==> HasNode(nodes.Keys - (todo - {q}), s) {
        OneNodeMore(nodes.Keys, todo, q, s);
      }
    }

    lemma InShardMore(s: int, lines: seq<Line>, line: Line)
      requires InShard(s, lines)
      ensures s == Shard(line.node) ==> InShard(s, lines + [line])
    {}

    lemma OneNodeMore(all: set<Node>, todo: set<Node>, q: Node, s: int)
      requires q in all
      ensures HasNode(all - (todo - {q}), s) <==> HasNode(all - todo, s) || s == Shard(q)
    {
      assert all - (todo - {q}) == all - todo + {q};
    }

    /** Spills what is left in memory; nothing is held for a node of any shard not listed. */
    method ShardsToRead(client: ClientId) returns (shards: seq<int>)
      requires Valid()
      modifies this, spill
      ensures Valid() && graphs == old(graphs) - {client} && Increasing(shards)
      ensures forall cl, n :: Held(cl, n) == old(Held(cl, n))
      ensures forall n :: Shard(n) !in shards ==> Held(client, n) == NO_NEIGHBOURS
    {
      if client in graphs {
        SpillToDisk(client);
      }
      shards := spill.ShardsOf(client);
    }

    /** The lines of one shard hold everything there is about its nodes, and nothing else. */
    method ReadLines(client: ClientId, shard: int) returns (lines: seq<Line>)
      requires Valid() && client !in graphs
      modifies spill
      ensures Valid()
      ensures forall cl, n :: Held(cl, n) == old(Held(cl, n))
      ensures forall n :: Filed(lines, n) == if Shard(n) == shard then Held(client, n) else NO_NEIGHBOURS
      ensures InShard(shard, lines)
    {
      assert InShard(shard, spill.File(Key(client, shard)));
      lines := spill.ReadShard(client, shard);
      forall n ensures Filed(lines, n) == if Shard(n) == shard then Held(client, n) else NO_NEIGHBOURS {
        if Shard(n) != shard {
          FiledAbsent(lines, n);
        }
      }
    }

    method Discard(client: ClientId)
      requires Valid()
      modifies this, spill
      ensures Valid() && graphs == old(graphs) - {client}
      ensures forall cl, n :: Held(cl, n) == if cl == client then NO_NEIGHBOURS else old(Held(cl, n))
    {
      spill.Clear(client);
      graphs := graphs - {client};
      assert forall cl :: NodesAt(graphs, cl) == if cl == client then map[] else NodesAt(old(graphs), cl);
      forall cl, n ensures Held(cl, n) == if cl == client then NO_NEIGHBOURS else old(Held(cl, n)) {
        assert cl != client ==> spill.File(Key(cl, Shard(n))) == old(spill.File(Key(cl, Shard(n))));
      }
      forall cl, s ensures InShard(s, spill.File(Key(cl, s))) {
        assert InShard(s, old(spill.File(Key(cl, s))));
      }
    }

    method SpillAll()
      requires Valid()
      modifies this, spill
      ensures Valid() && graphs == map[]
      ensures forall cl, n :: Held(cl, n) == old(Held(cl, n))
      ensures forall k ::
                FileAt(spill.files, k).Open? <==> old(FileAt(spill.files, k)).Open? || InMemory(old(graphs), k)
    {
      hide Held, Valid, Grown, FileAt;
      var clients := graphs.Keys;
      ghost var graphs0 := graphs;
      while clients != {}
        invariant clients == graphs.Keys && Valid()
        invariant forall cl :: cl in graphs ==> cl in graphs0 && graphs[cl] == graphs0[cl]
        invariant forall cl, n :: Held(cl, n) == old(Held(cl, n))
        invariant forall k :: FileAt(spill.files, k).Open? <==>
                    old(FileAt(spill.files, k)).Open? || (k.client !in graphs && InMemory(graphs0, k))
        decreases |clients|
      {
        var client := Choose(clients);
        assert forall k: Key :: k.client == client ==> (InMemory(graphs, k) <==> InMemory(graphs0, k));
        SpillToDisk(client);
        clients := clients - {client};
      }
    }

    /** A checkpoint spills every dictionary first, so the snapshot only records file lengths. */
    method SnapshotState() returns (committed: map<Key, nat>)
      requires Valid()
      modifies this, spill
      ensures Valid() && graphs == map[] && committed == OpenLengths(spill.files) && AllOnDisk(spill.files)
      ensures forall cl, n :: Held(cl, n) == old(Held(cl, n)) == OnDisk(spill.files, cl, n)
      ensures forall k ::
                FileAt(spill.files, k).Open? <==> old(FileAt(spill.files, k)).Open? || InMemory(old(graphs), k)
    {
      forall a { JoinUnit(a); }
      SpillAll();
      label L0:
      committed := spill.Snapshot();
      forall cl, n ensures Held(cl, n) == old(Held(cl, n)) {
        assert spill.File(Key(cl, Shard(n))) == old@L0(spill.File(Key(cl, Shard(n))));
      }
    }

    /** What restore leaves of a node's lines written after the snapshot. */
    ghost function Kept(before: map<Key, FileState<Line>>, atCrash: map<Key, FileState<Line>>, client: ClientId,
                        n: Node): Adjacency
    {
      var k := Key(client, Shard(n));
      Filed(KeptLines(FileAt(before, k), FileAt(atCrash, k)), n)
    }

    /** The process dies some time after a snapshot and is restored from it: everything is held that was
        held at the snapshot, and besides it whatever the lines kept in uncovered files hold, which is
        part of what was held at the crash. */
    method CrashAndRestore(committed: map<Key, nat>, ghost before: map<Key, FileState<Line>>)
      requires Valid() && committed == OpenLengths(before) && Grown(before, spill.files) && AllOnDisk(before)
      modifies this, spill
      ensures Valid() && graphs == map[]
      ensures forall cl, n :: Held(cl, n) == Join(OnDisk(before, cl, n), Kept(before, old(spill.files), cl, n))
      ensures forall cl, n :: Within(Held(cl, n), old(Held(cl, n)))
      ensures Covered(before, old(spill.files)) ==>
              forall cl, n :: Kept(before, old(spill.files), cl, n) == NO_NEIGHBOURS
    {
      hide Covered, Grown, AllOnDisk, FileAt, OpenLengths, KeptLines, Filed, FileState.Content, FileState.Flushed;
      ghost var atCrash := spill.files;
      KeptNothing(before, atCrash);
      spill.CrashAndRestore(committed, before);
      graphs := map[];
      forall cl, n
        ensures Held(cl, n) == Join(OnDisk(before, cl, n), Kept(before, atCrash, cl, n))
        ensures Within(Held(cl, n), old(Held(cl, n)))
      {
        var k := Key(cl, Shard(n));
        FiledConcat(FileAt(before, k).Content(), KeptLines(FileAt(before, k), FileAt(atCrash, k)), n);
        FiledPrefix(spill.File(k), old(spill.File(k)), n);
      }
      forall cl, s ensures InShard(s, spill.File(Key(cl, s))) {
        assert InShard(s, old(spill.File(Key(cl, s))));
        assert spill.File(Key(cl, s)) <= old(spill.File(Key(cl, s)));
      }
    }

    lemma KeptNothing(before: map<Key, FileState<Line>>, atCrash: map<Key, FileState<Line>>)
      requires Grown(before, atCrash)
      ensures Covered(before, atCrash) ==> forall cl, n :: Kept(before, atCrash, cl, n) == NO_NEIGHBOURS
    {
      hide Covered, Grown, Filed, FileAt, KeptLines;
      CoveredKeepsNothing(before, atCrash);
      FiledNothing();
    }

    /** Snapshot, death of the process and restore give back everything held, with nothing in memory. */
    method SnapshotAndRestart()
      requires Valid()
      modifies this, spill
      ensures Valid() && graphs == map[]
      ensures forall cl, n :: Held(cl, n) == old(Held(cl, n))
    {
      var committed := SnapshotState();
      label L0:
      spill.Restart(committed);
      graphs := map[];
      forall cl, n ensures Held(cl, n) == old(Held(cl, n)) {
        assert spill.File(Key(cl, Shard(n))) == old@L0(spill.File(Key(cl, Shard(n))));
      }
    }
  }
}

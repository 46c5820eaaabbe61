/** UC4Degree: finds the nodes of degree at least five while keeping at most five neighbours
    per node, through capped updates, spills and capped merges of already-capped partials. */
module Uc4Degree {
  import opened Common
  import opened Spill
  import opened Uc4Graph
  import opened GraphLedger

  const SPILL_THRESHOLD := 100_000

  /** kept stands for the true set `all` as far as the threshold is concerned. */
  ghost predicate Capped(kept: set<Node>, all: set<Node>) {
    kept <= all && |kept| >= Min(MIN_DEGREE, |all|)
  }

  ghost predicate CappedBoth(kept: Adjacency, all: Adjacency) {
    Capped(kept.preds, all.preds) && Capped(kept.succs, all.succs)
  }

  /** after is a capped update of bucket with the neighbours. */
  ghost predicate CappedUpdate(bucket: set<Node>, neighbours: set<Node>, after: set<Node>) {
    && bucket <= after <= bucket + neighbours
    && |after| >= Min(MIN_DEGREE, |bucket + neighbours|)
    && (|bucket| <= MIN_DEGREE ==> |after| <= MIN_DEGREE)
  }

  ghost predicate CappedUpdateBoth(bucket: Adjacency, more: Adjacency, after: Adjacency) {
    CappedUpdate(bucket.preds, more.preds, after.preds) && CappedUpdate(bucket.succs, more.succs, after.succs)
  }

  /** The threshold question has the same answer on the capped set. */
  lemma CappedDecides(kept: set<Node>, all: set<Node>)
    requires Capped(kept, all)
    ensures |kept| >= MIN_DEGREE <==> |all| >= MIN_DEGREE
  {
    SubsetOfSameSize(kept, all);
  }

  /** A capped update of the in-memory part keeps the whole (memory and disk) capped. */
  lemma CappedStep(memory: set<Node>, disk: set<Node>, all: set<Node>, neighbours: set<Node>, after: set<Node>)
    requires Capped(memory + disk, all)
    requires CappedUpdate(memory, neighbours, after)
    ensures Capped(after + disk, all + neighbours)
  {
    var before, now := memory + disk, after + disk;
    SubsetOfSameSize(before, now);
    SubsetOfSameSize(after, now);
    if |all| < MIN_DEGREE && |after| < MIN_DEGREE {
      SubsetOfSameSize(before, all);
      SubsetOfSameSize(after, memory + neighbours);
      assert now == all + neighbours;
    }
  }

  lemma CappedStepBoth(memory: Adjacency, disk: Adjacency, all: Adjacency, more: Adjacency, after: Adjacency)
    requires CappedBoth(Join(memory, disk), all)
    requires CappedUpdateBoth(memory, more, after)
    ensures CappedBoth(Join(after, disk), Join(all, more))
  {
    CappedStep(memory.preds, disk.preds, all.preds, more.preds, after.preds);
    CappedStep(memory.succs, disk.succs, all.succs, more.succs, after.succs);
  }

  lemma StepGrows(memory: Adjacency, disk: Adjacency, more: Adjacency, after: Adjacency)
    requires CappedUpdateBoth(memory, more, after)
    ensures Within(Join(memory, disk), Join(after, disk))
  {}

  lemma CappedPlus(kept: Adjacency, all: Adjacency, more: Adjacency)
    requires CappedBoth(kept, all)
    ensures CappedBoth(Join(kept, more), Join(all, more))
  {
    CappedUnion(kept.preds, all.preds, more.preds);
    CappedUnion(kept.succs, all.succs, more.succs);
  }

  lemma CappedUnion(kept: set<Node>, all: set<Node>, more: set<Node>)
    requires Capped(kept, all)
    ensures Capped(kept + more, all + more)
  {
    SubsetOfSameSize(kept, all);
    SubsetOfSameSize(kept, kept + more);
  }

  /** What is kept is part of what was held at the crash, and so of what that stood for. */
  lemma KeptBound(onDisk: Adjacency, kept: Adjacency, held: Adjacency, all: Adjacency)
    requires Within(Join(onDisk, kept), held) && CappedBoth(held, all)
    ensures Within(kept, all) && Within(kept, Join(onDisk, kept))
  {}

  /** A bucket that contains what was kept stands for the rest alone if and only if that contains it. */
  lemma CappedWith(held: Adjacency, all: Adjacency, kept: Adjacency)
    requires CappedBoth(held, Join(all, kept)) && Within(kept, held)
    ensures CappedBoth(held, all) <==> Within(kept, all)
  {
    if Within(kept, all) {
      WithinJoin(kept, all);
    }
  }

  /** A capped merge of partials is a capped version of the union of the partials. */
  lemma CappedMerge(bucket: set<Node>, all: set<Node>, partial: set<Node>, after: set<Node>)
    requires Capped(bucket, all)
    requires CappedUpdate(bucket, partial, after)
    ensures Capped(after, all + partial)
  {
    CappedStep(bucket, {}, all, partial, after);
    assert bucket + {} == bucket;
    assert after + {} == after;
  }

  /** One node's bucket is capped-updated and the others are untouched. */
  ghost predicate NodeUpdated(nodes: map<Node, Adjacency>, n: Node, more: Adjacency, after: map<Node, Adjacency>) {
    && CappedUpdateBoth(AdjacencyAt(nodes, n), more, AdjacencyAt(after, n))
    && forall m :: m != n ==> AdjacencyAt(after, m) == AdjacencyAt(nodes, m)
  }

  ghost predicate SmallBuckets(nodes: map<Node, Adjacency>) {
    forall n :: n in nodes ==> |nodes[n].preds| <= MIN_DEGREE && |nodes[n].succs| <= MIN_DEGREE
  }

  ghost predicate SmallMemory(graphs: map<ClientId, map<Node, Adjacency>>) {
    forall client :: client in graphs ==> SmallBuckets(graphs[client])
  }

  lemma SmallMemoryAt(graphs: map<ClientId, map<Node, Adjacency>>, client: ClientId)
    requires SmallMemory(graphs)
    ensures SmallBuckets(NodesAt(graphs, client))
    ensures SmallMemory(graphs - {client})
  {}

  lemma SmallMemoryStore(graphs: map<ClientId, map<Node, Adjacency>>, client: ClientId, nodes: map<Node, Adjacency>)
    requires SmallMemory(graphs) && SmallBuckets(nodes)
    ensures SmallMemory(graphs[client := nodes])
  {}

  ghost predicate DegreeResult(client: ClientId, ins: seq<Graph>, m: HighDegree) {
    && m.client == client
    && (forall n :: n in m.hiOut <==> |Merged(ins, n).succs| >= MIN_DEGREE)
    && (forall n :: n in m.hiIn <==> |Merged(ins, n).preds| >= MIN_DEGREE)
  }

  /** Adds neighbours, in any order, until the bucket holds five. */
  method UpdateCapped(bucket: set<Node>, neighbours: set<Node>) returns (after: set<Node>)
    ensures CappedUpdate(bucket, neighbours, after)
  {
    after := bucket;
    var todo := neighbours;
    while todo != {} && |after| < MIN_DEGREE
      invariant todo <= neighbours
      invariant after == bucket + (neighbours - todo)
      invariant |bucket| <= MIN_DEGREE ==> |after| <= MIN_DEGREE
      decreases |todo|
    {
      var x := Choose(todo);
      after := after + {x};
      todo := todo - {x};
    }
    if todo == {} {
      assert after == bucket + neighbours;
    }
  }

  lemma CappedTransitive(a: set<Node>, b: set<Node>, c: set<Node>)
    requires Capped(a, b) && Capped(b, c)
    ensures Capped(a, c)
  {}

  method UpdateNode(nodes: map<Node, Adjacency>, n: Node, more: Adjacency) returns (after: map<Node, Adjacency>)
    ensures SmallBuckets(nodes) ==> SmallBuckets(after)
    ensures NodeUpdated(nodes, n, more, after)
  {
    var bucket := AdjacencyAt(nodes, n);
    var preds := UpdateCapped(bucket.preds, more.preds);
    var succs := UpdateCapped(bucket.succs, more.succs);
    after := nodes[n := Adjacency(preds, succs)];
  }

  /** Every node outside `todo` has been capped-updated with what the message holds for it. */
  ghost predicate AllUpdated(nodes0: map<Node, Adjacency>, more: map<Node, Adjacency>, todo: set<Node>,
                             nodes: map<Node, Adjacency>)
  {
    && SmallBuckets(nodes)
    && (forall n :: n in todo ==> AdjacencyAt(nodes, n) == AdjacencyAt(nodes0, n))
    && (forall n ::
          n !in todo ==> CappedUpdateBoth(AdjacencyAt(nodes0, n), AdjacencyAt(more, n), AdjacencyAt(nodes, n)))
  }

  lemma OneUpdated(nodes0: map<Node, Adjacency>, more: map<Node, Adjacency>, todo: set<Node>,
                   nodes: map<Node, Adjacency>, n: Node, after: map<Node, Adjacency>)
    requires AllUpdated(nodes0, more, todo, nodes) && n in todo && n in more
    requires NodeUpdated(nodes, n, more[n], after) && (SmallBuckets(nodes) ==> SmallBuckets(after))
    ensures AllUpdated(nodes0, more, todo - {n}, after)
  {
    hide CappedUpdateBoth, SmallBuckets;
  }

  method UpdateAll(nodes0: map<Node, Adjacency>, more: map<Node, Adjacency>) returns (nodes: map<Node, Adjacency>)
    requires SmallBuckets(nodes0)
    ensures SmallBuckets(nodes)
    ensures forall n :: CappedUpdateBoth(AdjacencyAt(nodes0, n), AdjacencyAt(more, n), AdjacencyAt(nodes, n))
  {
    hide CappedUpdateBoth, NodeUpdated, AllUpdated, SmallBuckets, AdjacencyAt;
    nodes := nodes0;
    var todo := more.Keys;
    UpdateStarts(nodes0, more);
    while todo != {}
      invariant todo <= more.Keys && AllUpdated(nodes0, more, todo, nodes)
      decreases |todo|
    {
      var n := Choose(todo);
      var after := UpdateNode(nodes, n, more[n]);
      OneUpdated(nodes0, more, todo, nodes, n, after);
      nodes := after;
      todo := todo - {n};
    }
    UpdatedFully(nodes0, more, nodes);
  }

  lemma UpdateStarts(nodes0: map<Node, Adjacency>, more: map<Node, Adjacency>)
    requires SmallBuckets(nodes0)
    ensures AllUpdated(nodes0, more, more.Keys, nodes0)
  {
    hide SmallBuckets;
  }

  lemma UpdatedFully(nodes0: map<Node, Adjacency>, more: map<Node, Adjacency>, nodes: map<Node, Adjacency>)
    requires AllUpdated(nodes0, more, {}, nodes)
    ensures SmallBuckets(nodes)
    ensures forall n :: CappedUpdateBoth(AdjacencyAt(nodes0, n), AdjacencyAt(more, n), AdjacencyAt(nodes, n))
  {
    hide SmallBuckets, CappedUpdateBoth;
  }

  /** Every bucket is a capped merge of what it was and of the lines read. */
  ghost predicate LinesMerged(buckets0: map<Node, Adjacency>, lines: seq<Line>, buckets: map<Node, Adjacency>) {
    forall n :: CappedBoth(AdjacencyAt(buckets, n), Join(AdjacencyAt(buckets0, n), Filed(lines, n)))
  }

  method MergeLines(buckets0: map<Node, Adjacency>, lines: seq<Line>) returns (buckets: map<Node, Adjacency>)
    ensures forall n :: CappedBoth(AdjacencyAt(buckets, n), Join(AdjacencyAt(buckets0, n), Filed(lines, n)))
  {
    buckets := buckets0;
    var i := 0;
    NothingMerged(buckets0);
    assert lines[..0] == [];
    hide LinesMerged, NodeUpdated, SmallBuckets;
    while i < |lines|
      invariant 0 <= i <= |lines| && LinesMerged(buckets0, lines[..i], buckets)
    {
      var after := UpdateNode(buckets, lines[i].node, lines[i].adjacency);
      assert lines[..i + 1] == lines[..i] + [lines[i]];
      LineMerged(buckets0, lines[..i], lines[i], buckets, after);
      buckets := after;
      i := i + 1;
    }
    assert lines[..i] == lines;
    Unfold(buckets0, lines, buckets);
  }

  lemma NothingMerged(buckets: map<Node, Adjacency>)
    ensures LinesMerged(buckets, [], buckets)
  {}

  lemma Unfold(buckets0: map<Node, Adjacency>, lines: seq<Line>, buckets: map<Node, Adjacency>)
    requires LinesMerged(buckets0, lines, buckets)
    ensures forall n :: CappedBoth(AdjacencyAt(buckets, n), Join(AdjacencyAt(buckets0, n), Filed(lines, n)))
  {}

  lemma LineMerged(buckets0: map<Node, Adjacency>, lines: seq<Line>, line: Line, before: map<Node, Adjacency>,
                   after: map<Node, Adjacency>)
    requires LinesMerged(buckets0, lines, before) && NodeUpdated(before, line.node, line.adjacency, after)
    ensures LinesMerged(buckets0, lines + [line], after)
  {
    hide Filed, CappedBoth, CappedUpdateBoth;
    forall n ensures CappedBoth(AdjacencyAt(after, n), Join(AdjacencyAt(buckets0, n), Filed(lines + [line], n))) {
      CappedLine(AdjacencyAt(buckets0, n), lines, line, n, AdjacencyAt(before, n), AdjacencyAt(after, n));
    }
  }

  lemma JoinAssociates(a: Adjacency, b: Adjacency, c: Adjacency)
    ensures Join(Join(a, b), c) == Join(a, Join(b, c))
  {}

  lemma CappedLine(start: Adjacency, lines: seq<Line>, line: Line, n: Node, bucket: Adjacency, after: Adjacency)
    requires CappedBoth(bucket, Join(start, Filed(lines, n)))
    requires if n == line.node then CappedUpdateBoth(bucket, line.adjacency, after) else after == bucket
    ensures CappedBoth(after, Join(start, Filed(lines + [line], n)))
  {
    FiledSnoc(lines, line, n);
    JoinUnit(Filed(lines, n));
    JoinAssociates(start, Filed(lines, n), line.adjacency);
    if n == line.node {
      CappedMergeBoth(bucket, Join(start, Filed(lines, n)), line.adjacency, after);
    }
    hide Filed, CappedBoth, CappedUpdateBoth, Join;
  }

  lemma CappedMergeBoth(bucket: Adjacency, all: Adjacency, partial: Adjacency, after: Adjacency)
    requires CappedBoth(bucket, all) && CappedUpdateBoth(bucket, partial, after)
    ensures CappedBoth(after, Join(all, partial))
  {
    CappedMerge(bucket.preds, all.preds, partial.preds, after.preds);
    CappedMerge(bucket.succs, all.succs, partial.succs, after.succs);
  }

  class UC4Degree {
    const ledger: GraphLedger
    const threshold: nat
    ghost var history: map<ClientId, seq<Graph>>

    ghost function Hist(client: ClientId): seq<Graph>
      reads this
    {
      SeqAt(history, client)
    }

    /** Every bucket, memory and disk together, is a capped version of the true neighbour set,
        and no bucket in memory holds more than five neighbours. */
    ghost predicate Valid()
      reads this, ledger, ledger.spill
    {
      && ledger.Valid()
      && SmallMemory(ledger.graphs)
      && (forall client, n :: CappedBoth(ledger.Held(client, n), Merged(Hist(client), n)))
    }

    constructor (ledger: GraphLedger, threshold: nat := SPILL_THRESHOLD)
      requires ledger.Valid() && ledger.graphs == map[] && forall cl, n :: ledger.Held(cl, n) == NO_NEIGHBOURS
      ensures Valid() && history == map[] && this.ledger == ledger
    {
      hide Merged, CappedBoth, GraphLedger.Valid, GraphLedger.Held;
      this.ledger, this.threshold := ledger, threshold;
      history := map[];
      new;
      NothingHeld();
    }

    method Aggregate(msg: Graph)
      requires Valid()
      modifies this, ledger, ledger.spill
      ensures Valid()
      ensures history == old(history)[msg.client := old(Hist(msg.client)) + [msg]]
      ensures old(AllBelow(ledger.graphs, threshold)) ==> AllBelow(ledger.graphs, threshold)
    {
      hide AllBelow, CappedBoth, Merged, Join, SmallMemory, Grown, GraphLedger.Valid, GraphLedger.Held;
      ghost var earlier := history;
      Update(msg, (cl, n) => Merged(SeqAt(earlier, cl), n));
      history := history[msg.client := Hist(msg.client) + [msg]];
      forall n { MergedSnoc(SeqAt(earlier, msg.client), msg, n); }
    }

    /** A capped update of every node of the message. `full` is what every bucket stands for. */
    method Update(msg: Graph, ghost full: (ClientId, Node) -> Adjacency)
      requires ledger.Valid() && SmallMemory(ledger.graphs)
      requires forall cl, n :: CappedBoth(ledger.Held(cl, n), full(cl, n))
      modifies ledger, ledger.spill
      ensures ledger.Valid() && SmallMemory(ledger.graphs) && Grown(old(ledger.spill.files), ledger.spill.files)
      ensures forall cl, n ::
        CappedBoth(ledger.Held(cl, n),
                   if cl == msg.client then Join(full(cl, n), AdjacencyAt(msg.nodes, n)) else full(cl, n))
      ensures forall cl, n :: Within(old(ledger.Held(cl, n)), ledger.Held(cl, n))
      ensures old(AllBelow(ledger.graphs, threshold)) ==> AllBelow(ledger.graphs, threshold)
    {
      hide AllBelow, CappedBoth, CappedUpdateBoth, SmallMemory, SmallBuckets, Join, Within, Grown;
      var memory := NodesAt(ledger.graphs, msg.client);
      SmallMemoryAt(ledger.graphs, msg.client);
      var nodes := UpdateAll(memory, msg.nodes);
      forall n
        ensures CappedBoth(Join(AdjacencyAt(nodes, n), ledger.OnDisk(ledger.spill.files, msg.client, n)),
                           Join(full(msg.client, n), AdjacencyAt(msg.nodes, n)))
        ensures Within(ledger.Held(msg.client, n),
                       Join(AdjacencyAt(nodes, n), ledger.OnDisk(ledger.spill.files, msg.client, n)))
      {
        assert CappedBoth(ledger.Held(msg.client, n), full(msg.client, n));
        StepGrows(AdjacencyAt(memory, n), ledger.OnDisk(ledger.spill.files, msg.client, n), AdjacencyAt(msg.nodes, n),
                  AdjacencyAt(nodes, n));
        CappedStepBoth(AdjacencyAt(memory, n), ledger.OnDisk(ledger.spill.files, msg.client, n), full(msg.client, n),
                       AdjacencyAt(msg.nodes, n), AdjacencyAt(nodes, n));
      }
      forall a { WithinItself(a); }
      StoreAndSpill(msg.client, nodes);
    }

    method StoreAndSpill(client: ClientId, nodes: map<Node, Adjacency>)
      requires ledger.Valid() && SmallBuckets(nodes) && SmallMemory(ledger.graphs)
      modifies ledger, ledger.spill
      ensures ledger.Valid() && SmallMemory(ledger.graphs) && Grown(old(ledger.spill.files), ledger.spill.files)
      ensures forall cl, n ::
        ledger.Held(cl, n)
          == if cl == client then Join(AdjacencyAt(nodes, n), old(ledger.OnDisk(ledger.spill.files, cl, n)))
          else old(ledger.Held(cl, n))
      ensures old(AllBelow(ledger.graphs, threshold)) ==> AllBelow(ledger.graphs, threshold)
    {
      hide SmallMemory, SmallBuckets, Join, Grown;
      SmallMemoryStore(ledger.graphs, client, nodes);
      GrownNothing(ledger.spill.files);
      ledger.Store(client, nodes);
      if |ledger.graphs[client]| >= threshold {
        SmallMemoryAt(ledger.graphs, client);
        ledger.SpillToDisk(client);
      }
    }

    method UpdateWith(msgs: seq<Graph>, ghost full: (ClientId, Node) -> Adjacency)
      requires ledger.Valid() && SmallMemory(ledger.graphs)
      requires forall cl, n :: CappedBoth(ledger.Held(cl, n), full(cl, n))
      modifies this, ledger, ledger.spill
      ensures ledger.Valid() && SmallMemory(ledger.graphs) && Grown(old(ledger.spill.files), ledger.spill.files)
      ensures forall cl :: Hist(cl) == old(Hist(cl)) + Where(GraphsFrom(cl), msgs)
      ensures forall cl, n :: CappedBoth(ledger.Held(cl, n), Join(full(cl, n), Merged(Where(GraphsFrom(cl), msgs), n)))
      ensures forall cl, n :: Within(old(ledger.Held(cl, n)), ledger.Held(cl, n))
    {
      hide CappedBoth, SmallMemory, Grown, Merged, Join, Where, GraphsFrom, AdjacencyAt, Within, GraphLedger.Valid,
        GraphLedger.Held;
      GrownNothing(ledger.spill.files);
      forall a { WithinItself(a); }
      var i := 0;
      forall cl { NoneMerged(cl); }
      while i < |msgs|
        invariant 0 <= i <= |msgs| && ledger.Valid() && SmallMemory(ledger.graphs)
                  && Grown(old(ledger.spill.files), ledger.spill.files)
        invariant forall cl :: Hist(cl) == old(Hist(cl)) + Where(GraphsFrom(cl), msgs[..i])
        invariant forall cl, n ::
                    CappedBoth(ledger.Held(cl, n), Join(full(cl, n), Merged(Where(GraphsFrom(cl), msgs[..i]), n)))
        invariant forall cl, n :: Within(old(ledger.Held(cl, n)), ledger.Held(cl, n))
      {
        ghost var before, earlier := ledger.spill.files, history;
        UpdateOne(msgs, i, full);
        GrownTwice(old(ledger.spill.files), before, ledger.spill.files);
        forall a, b, c | Within(a, b) && Within(b, c) ensures Within(a, c) { WithinTwice(a, b, c); }
        assert msgs[..i + 1] == msgs[..i] + [msgs[i]];
        forall cl ensures Hist(cl) == old(Hist(cl)) + Where(GraphsFrom(cl), msgs[..i + 1]) {
          GraphsOneMore(msgs[..i], msgs[i], cl);
          assert Hist(cl) == SeqAt(earlier, cl) + (if msgs[i].client == cl then [msgs[i]] else []);
        }
        i := i + 1;
      }
      assert msgs[..i] == msgs;
    }

    /** A checkpoint, some more messages, the death of the process, a restore and a replay. `before` is
        what the files were after the checkpoint, `atCrash` and `memory` what the files and the memory
        were when the process died. Every bucket stands for what was received before the checkpoint and
        in the replay together with what the lines hold that were lost but had reached an uncovered file.
        That is right if and only if those lines hold nothing else: so when every file was covered or did
        not grow, and whenever the lost messages are delivered again. */
    method MergeThroughCrash(lost: seq<Graph>, replay: seq<Graph>)
      returns (ghost before: map<Key, FileState<Line>>, ghost atCrash: map<Key, FileState<Line>>,
               ghost memory: map<ClientId, map<Node, Adjacency>>)
      requires Valid()
      modifies this, ledger, ledger.spill
      ensures AllOnDisk(before) && Grown(before, atCrash)
      ensures forall cl, n :: ledger.OnDisk(before, cl, n) == old(ledger.Held(cl, n))
      ensures forall k :: FileAt(before, k).Open? <==>
                old(FileAt(ledger.spill.files, k)).Open? || ledger.InMemory(old(ledger.graphs), k)
      ensures forall cl, n :: CappedBoth(Join(AdjacencyAt(NodesAt(memory, cl), n), ledger.OnDisk(atCrash, cl, n)),
                                         Join(Merged(old(Hist(cl)), n), Merged(Where(GraphsFrom(cl), lost), n)))
      ensures ledger.Valid() && SmallMemory(ledger.graphs)
      ensures forall cl :: Hist(cl) == old(Hist(cl)) + Where(GraphsFrom(cl), replay)
      ensures forall cl, n ::
                CappedBoth(ledger.Held(cl, n), Join(Merged(Hist(cl), n), ledger.Kept(before, atCrash, cl, n)))
      ensures Valid() <==> forall cl, n :: Within(ledger.Kept(before, atCrash, cl, n), Merged(Hist(cl), n))
      ensures Covered(before, atCrash) || (forall m :: m in lost ==> m in replay) ==> Valid()
    {
      hide CappedBoth, SmallMemory, Grown, Merged, Join, Within, Where, GraphsFrom, Filed, FileAt, AllOnDisk, Covered;
      hide FileState.Content, FileState.Flushed, OpenLengths, AdjacencyAt, GraphLedger.Valid, GraphLedger.Kept;
      hide GraphLedger.OnDisk, GraphLedger.InMemory;
      var committed := ledger.SnapshotState();
      SmallMemoryEmpty();
      before := ledger.spill.files;
      ghost var saved := history;
      UpdateWith(lost, (cl, n) => Merged(SeqAt(saved, cl), n));
      atCrash, memory := ledger.spill.files, ledger.graphs;
      label Crashing:
      ledger.CrashAndRestore(committed, before);
      SmallMemoryEmpty();
      ghost var files0, files1 := before, atCrash;
      forall cl, n
        ensures Within(ledger.Kept(files0, files1, cl, n), Merged(SeqAt(saved, cl) + Where(GraphsFrom(cl), lost), n))
        ensures Within(ledger.Kept(files0, files1, cl, n), ledger.Held(cl, n))
        ensures CappedBoth(ledger.Held(cl, n), Join(Merged(SeqAt(saved, cl), n), ledger.Kept(files0, files1, cl, n)))
      {
        var onDisk, kept := ledger.OnDisk(files0, cl, n), ledger.Kept(files0, files1, cl, n);
        CappedPlus(onDisk, Merged(SeqAt(saved, cl), n), kept);
        KeptBound(onDisk, kept, old@Crashing(ledger.Held(cl, n)),
                  Join(Merged(SeqAt(saved, cl), n), Merged(Where(GraphsFrom(cl), lost), n)));
        KeptWithin(SeqAt(saved, cl), Where(GraphsFrom(cl), lost), n, kept);
      }
      history := saved;
      label Replaying:
      UpdateWith(replay, (cl, n) => Join(Merged(SeqAt(saved, cl), n), ledger.Kept(files0, files1, cl, n)));
      forall a { NothingWithin(a); }
      forall cl, n
        ensures CappedBoth(ledger.Held(cl, n), Join(Merged(Hist(cl), n), ledger.Kept(before, atCrash, cl, n)))
        ensures CappedBoth(ledger.Held(cl, n), Merged(Hist(cl), n)) <==>
                Within(ledger.Kept(before, atCrash, cl, n), Merged(Hist(cl), n))
        ensures (forall m :: m in lost ==> m in replay) ==>
                Within(ledger.Kept(before, atCrash, cl, n), Merged(Hist(cl), n))
      {
        var kept := ledger.Kept(before, atCrash, cl, n);
        ReplayedWith(SeqAt(saved, cl), lost, replay, cl, n, kept);
        WithinTwice(kept, old@Replaying(ledger.Held(cl, n)), ledger.Held(cl, n));
        CappedWith(ledger.Held(cl, n), Merged(Hist(cl), n), kept);
      }
    }

    lemma SmallMemoryEmpty()
      ensures SmallMemory(map[])
    {}

    /** Message number i of a stretch of messages. */
    method UpdateOne(msgs: seq<Graph>, i: nat, ghost full: (ClientId, Node) -> Adjacency)
      requires i < |msgs| && ledger.Valid() && SmallMemory(ledger.graphs)
      requires forall cl, n ::
                 CappedBoth(ledger.Held(cl, n), Join(full(cl, n), Merged(Where(GraphsFrom(cl), msgs[..i]), n)))
      modifies this, ledger, ledger.spill
      ensures ledger.Valid() && SmallMemory(ledger.graphs) && Grown(old(ledger.spill.files), ledger.spill.files)
      ensures forall cl :: Hist(cl) == old(Hist(cl)) + (if msgs[i].client == cl then [msgs[i]] else [])
      ensures forall cl, n ::
                CappedBoth(ledger.Held(cl, n), Join(full(cl, n), Merged(Where(GraphsFrom(cl), msgs[..i + 1]), n)))
      ensures forall cl, n :: Within(old(ledger.Held(cl, n)), ledger.Held(cl, n))
    {
      hide CappedBoth, SmallMemory, Grown, Merged, Join, Where, GraphsFrom, AdjacencyAt, Within, GraphLedger.Valid,
        GraphLedger.Held;
      Update(msgs[i], (cl, n) => Join(full(cl, n), Merged(Where(GraphsFrom(cl), msgs[..i]), n)));
      assert msgs[..i + 1] == msgs[..i] + [msgs[i]];
      forall cl, n
        ensures CappedBoth(ledger.Held(cl, n), Join(full(cl, n), Merged(Where(GraphsFrom(cl), msgs[..i + 1]), n)))
      {
        MergedOne(msgs[..i], msgs[i], cl, n, full(cl, n));
      }
      ghost var earlier := history;
      history := history[msgs[i].client := Hist(msgs[i].client) + [msgs[i]]];
      assert forall cl :: Hist(cl) == SeqAt(earlier, cl) + (if msgs[i].client == cl then [msgs[i]] else []);
    }

    /** Capped merge of every shard file; the nodes whose bucket reached five are reported. */
    method GetResult(client: ClientId) returns (m: HighDegree)
      requires Valid()
      modifies ledger, ledger.spill
      ensures Valid() && client !in ledger.graphs
      ensures DegreeResult(client, Hist(client), m)
    {
      hide SmallMemory, SmallBuckets, Merged, CappedBoth, GraphLedger.Valid, GraphLedger.Held;
      SmallMemoryAt(ledger.graphs, client);
      var shards := ledger.ShardsToRead(client);
      var buckets := MergeShards(client, shards);
      m := HighDegree(client,
        set n | n in buckets && |buckets[n].succs| >= MIN_DEGREE,
        set n | n in buckets && |buckets[n].preds| >= MIN_DEGREE);
      forall n
        ensures n in m.hiOut <==> |Merged(Hist(client), n).succs| >= MIN_DEGREE
        ensures n in m.hiIn <==> |Merged(Hist(client), n).preds| >= MIN_DEGREE
      {
        BucketDecides(AdjacencyAt(buckets, n), ledger.Held(client, n), Merged(Hist(client), n));
      }
    }

    lemma BucketDecides(bucket: Adjacency, held: Adjacency, all: Adjacency)
      requires CappedBoth(bucket, held) && CappedBoth(held, all)
      ensures |bucket.succs| >= MIN_DEGREE <==> |all.succs| >= MIN_DEGREE
      ensures |bucket.preds| >= MIN_DEGREE <==> |all.preds| >= MIN_DEGREE
    {
      CappedDecides(bucket.succs, held.succs);
      CappedDecides(held.succs, all.succs);
      CappedDecides(bucket.preds, held.preds);
      CappedDecides(held.preds, all.preds);
    }

    method MergeShards(client: ClientId, shards: seq<int>) returns (buckets: map<Node, Adjacency>)
      requires ledger.Valid() && client !in ledger.graphs && Increasing(shards)
      requires forall n :: ledger.Shard(n) !in shards ==> ledger.Held(client, n) == NO_NEIGHBOURS
      modifies ledger.spill
      ensures ledger.Valid()
      ensures forall cl, n :: ledger.Held(cl, n) == old(ledger.Held(cl, n))
      ensures forall n :: CappedBoth(AdjacencyAt(buckets, n), ledger.Held(client, n))
    {
      buckets := map[];
      var i := 0;
      assert shards[0..] == shards;
      assert CappedBoth(NO_NEIGHBOURS, NO_NEIGHBOURS);
      hide CappedBoth, Increasing;
      while i < |shards|
        invariant 0 <= i <= |shards| && ledger.Valid()
        invariant forall cl, n :: ledger.Held(cl, n) == old(ledger.Held(cl, n))
        invariant forall n ::
                    BucketState(ledger.Shard(n) in shards[i..], AdjacencyAt(buckets, n), old(ledger.Held(client, n)))
      {
        ghost var before := buckets;
        NextShard(shards, i);
        buckets := MergeShard(client, buckets, shards[i]);
        forall n
          ensures BucketState(ledger.Shard(n) in shards[i + 1..], AdjacencyAt(buckets, n), old(ledger.Held(client, n)))
        {
          BucketStep(ledger.Shard(n) in shards[i..], ledger.Shard(n) == shards[i], AdjacencyAt(before, n),
                     AdjacencyAt(buckets, n), old(ledger.Held(client, n)));
        }
        i := i + 1;
      }
      forall n ensures CappedBoth(AdjacencyAt(buckets, n), ledger.Held(client, n)) {
        assert BucketState(ledger.Shard(n) in shards[i..], AdjacencyAt(buckets, n), old(ledger.Held(client, n)));
      }
    }

    lemma NextShard(shards: seq<int>, i: nat)
      requires Increasing(shards) && i < |shards|
      ensures forall s :: s in shards[i + 1..] <==> s in shards[i..] && s != shards[i]
    {
      assert shards[i..] == [shards[i]] + shards[i + 1..];
    }

    /** One shard's lines fill the buckets of its own nodes and leave the others as good as they were. */
    lemma BucketStep(left: bool, now: bool, before: Adjacency, after: Adjacency, held: Adjacency)
      requires BucketState(left, before, held) && (now ==> left)
      requires CappedBoth(after, Join(before, if now then held else NO_NEIGHBOURS))
      ensures BucketState(left && !now, after, held)
    {
      JoinUnit(before);
      JoinUnit(held);
      if !left {
        CappedTransitive(after.preds, before.preds, held.preds);
        CappedTransitive(after.succs, before.succs, held.succs);
      } else if !now {
        assert after == NO_NEIGHBOURS;
      }
    }

    /** A node's bucket is empty until its shard has been read and capped from then on. */
    ghost predicate BucketState(left: bool, bucket: Adjacency, held: Adjacency) {
      if left then bucket == NO_NEIGHBOURS else CappedBoth(bucket, held)
    }

    method MergeShard(client: ClientId, buckets0: map<Node, Adjacency>, shard: int)
      returns (buckets: map<Node, Adjacency>)
      requires ledger.Valid() && client !in ledger.graphs
      modifies ledger.spill
      ensures ledger.Valid()
      ensures forall cl, n :: ledger.Held(cl, n) == old(ledger.Held(cl, n))
      ensures forall n :: CappedBoth(AdjacencyAt(buckets, n),
        Join(AdjacencyAt(buckets0, n), if ledger.Shard(n) == shard then ledger.Held(client, n) else NO_NEIGHBOURS))
    {
      hide CappedBoth, Filed;
      var lines := ledger.ReadLines(client, shard);
      buckets := MergeLines(buckets0, lines);
    }

    method Discard(client: ClientId)
      requires Valid()
      modifies this, ledger, ledger.spill
      ensures Valid() && history == old(history)[client := []]
    {
      hide Merged, CappedBoth, SmallMemory, SmallBuckets, AdjacencyAt, NodesAt, GraphLedger.Valid, GraphLedger.Held;
      NothingHeld();
      SmallMemoryAt(ledger.graphs, client);
      ledger.Discard(client);
      history := history[client := []];
      forall cl, n ensures CappedBoth(ledger.Held(cl, n), Merged(Hist(cl), n)) {
        assert Hist(cl) == if cl == client then [] else old(Hist(cl));
        assert CappedBoth(old(ledger.Held(cl, n)), Merged(old(Hist(cl)), n));
      }
    }

    lemma NothingHeld()
      ensures CappedBoth(NO_NEIGHBOURS, NO_NEIGHBOURS)
      ensures forall n :: Merged([], n) == NO_NEIGHBOURS
    {}

    method SnapshotState() returns (committed: map<Key, nat>)
      requires Valid()
      modifies ledger, ledger.spill
      ensures Valid() && ledger.graphs == map[] && committed == OpenLengths(ledger.spill.files)
    {
      committed := ledger.SnapshotState();
    }
  }
}

/** The pipeline put together from the stages' own code, any number of peers per stage: transactions in,
    accounts out. Every hop routes by affinity and delivers in any order. It is one of the runs the
    end-to-end theorem speaks about. */
module Uc4Pipeline {
  import opened Common
  import opened Uc4Graph
  import Spill
  import GL = GraphLedger
  import PL = PathLedger
  import GroupStage = Uc4GroupBy
  import GraphStage = Uc4AggregateGraphs
  import DegreeStage = Uc4Degree
  import PruneStage = Uc4Prune
  import CountStage = Uc4CountPaths
  import PathStage = Uc4AggregatePaths
  import JoinStage = Uc4Join
  import opened Uc4EndToEnd

  /** The tunables of a deployment; none of them changes the answer. */
  datatype Settings = Settings(
    graphPeers: Shards, degreePeers: Shards, prunePeers: Shards, countPeers: Shards, pathPeers: Shards,
    nodeShard: Node -> int, pathShard: (ClientId, Path) -> int, graphThreshold: nat, degreeThreshold: nat,
    splitThreshold: nat, chunkSize: nat, countThreshold: nat, pathThreshold: nat,
    graphBuffer: (Spill.Key, Spill.FileState<GL.Line>) -> bool,
    pathBuffer: (Spill.Key, Spill.FileState<PL.Line>) -> bool)

  // ---- The hops ------------------------------------------------------------------------------------

  /** Each message goes to the peer its affinity selects; the deliveries may come in any order. */
  method Deliver<M(!new)>(outs: seq<Routed<M>>, peers: Shards) returns (ins: seq<seq<M>>)
    ensures |ins| == peers && RoutedTo(outs, ins)
  {
    ins := seq(peers, _ => []);
    var rest := outs;
    NothingDelivered(outs, ins);
    hide Delivering, RoutedTo, Without;
    while rest != []
      invariant |ins| == peers && Delivering(outs, rest, ins)
      decreases |rest|
    {
      var i :| 0 <= i < |rest|;
      var k := rest[i].affinity % peers;
      DeliverOne(outs, rest, ins, i);
      ins := ins[k := ins[k] + [rest[i].message]];
      rest := Without(rest, i);
    }
    AllDelivered(outs, ins);
  }

  /** What is not in `rest` any more is at the peer its affinity selects. */
  ghost predicate Delivering<M(!new)>(outs: seq<Routed<M>>, rest: seq<Routed<M>>, ins: seq<seq<M>>) {
    && |ins| > 0
    && multiset(Flatten(ins)) + multiset(Messages(rest)) == multiset(Messages(outs))
    && (forall r :: r in rest ==> r in outs)
    && (forall k, m :: 0 <= k < |ins| && m in ins[k] ==>
          exists r :: r in outs && r.message == m && r.affinity % |ins| == k)
  }

  lemma {:induction false} FlattenEmpty<M(!new)>(ins: seq<seq<M>>)
    requires forall k :: 0 <= k < |ins| ==> ins[k] == []
    ensures Flatten(ins) == []
  {
    if ins != [] {
      FlattenEmpty(ins[1..]);
    }
  }

  lemma NothingDelivered<M(!new)>(outs: seq<Routed<M>>, ins: seq<seq<M>>)
    requires |ins| > 0 && forall k :: 0 <= k < |ins| ==> ins[k] == []
    ensures Delivering(outs, outs, ins)
  {
    FlattenEmpty(ins);
  }

  lemma AllDelivered<M(!new)>(outs: seq<Routed<M>>, ins: seq<seq<M>>)
    requires Delivering(outs, [], ins)
    ensures RoutedTo(outs, ins)
  {
    assert Messages<M>([]) == [];
  }

  lemma {:induction false} FlattenMore<M(!new)>(ins: seq<seq<M>>, k: nat, m: M)
    requires k < |ins|
    ensures multiset(Flatten(ins[k := ins[k] + [m]])) == multiset(Flatten(ins)) + multiset{m}
  {
    var after := ins[k := ins[k] + [m]];
    var tail := Flatten(after[1..]);
    assert Flatten(after) == after[0] + tail && Flatten(ins) == ins[0] + Flatten(ins[1..]);
    hide Flatten;
    if k == 0 {
      assert after[1..] == ins[1..];
      assert after[0] + tail == ins[0] + [m] + tail;
    } else {
      assert after[1..] == ins[1..][k - 1 := ins[1..][k - 1] + [m]];
      FlattenMore(ins[1..], k - 1, m);
    }
  }

  lemma DeliverOne<M(!new)>(outs: seq<Routed<M>>, rest: seq<Routed<M>>, ins: seq<seq<M>>, i: nat)
    requires Delivering(outs, rest, ins) && i < |rest|
    ensures var k := rest[i].affinity % |ins|;
            Delivering(outs, Without(rest, i), ins[k := ins[k] + [rest[i].message]])
  {
    var k, m := rest[i].affinity % |ins|, rest[i].message;
    var after := ins[k := ins[k] + [m]];
    FlattenMore(ins, k, m);
    assert Messages(Without(rest, i)) == Without(Messages(rest), i);
    WithoutIsRest(Messages(rest), i);
    assert rest[i] in rest;
    forall j, x | 0 <= j < |after| && x in after[j]
      ensures exists r :: r in outs && r.message == x && r.affinity % |after| == j
    {
      if !(x in ins[j]) {
        assert rest[i] in outs && rest[i].message == x && rest[i].affinity % |after| == j;
      }
    }
  }

  /** The messages of a queue in any order. */
  method Shuffle<M>(ms: seq<M>) returns (shuffled: seq<M>)
    ensures multiset(shuffled) == multiset(ms)
  {
    shuffled := [];
    var rest := ms;
    while rest != []
      invariant multiset(shuffled) + multiset(rest) == multiset(ms)
      decreases |rest|
    {
      var i :| 0 <= i < |rest|;
      WithoutIsRest(rest, i);
      shuffled := shuffled + [rest[i]];
      rest := Without(rest, i);
    }
  }

  /** Every message a peer receives was sent. */
  lemma Received<M(!new)>(outs: seq<Routed<M>>, ins: seq<seq<M>>)
    requires RoutedTo(outs, ins)
    ensures forall k, m :: 0 <= k < |ins| && m in ins[k] ==> m in Messages(outs)
  {
    forall k, m | 0 <= k < |ins| && m in ins[k] ensures m in Messages(outs) {
      DeliveredMember(Messages(outs), ins, m);
    }
  }

  // ---- The stages ----------------------------------------------------------------------------------

  method GroupPeer(hash: Node -> int, client: ClientId, batches: seq<seq<Edge>>)
    returns (grouped: seq<seq<Routed<Graph>>>)
    ensures |grouped| == |batches|
    ensures forall i :: 0 <= i < |batches| ==> GroupStage.GroupResult(hash, client, batches[i], grouped[i])
  {
    grouped := [];
    hide GroupStage.GroupResult;
    while |grouped| < |batches|
      invariant |grouped| <= |batches|
      invariant forall i :: 0 <= i < |grouped| ==> GroupStage.GroupResult(hash, client, batches[i], grouped[i])
    {
      var outs := GroupStage.GroupBy(hash, client, batches[|grouped|]);
      grouped := grouped + [outs];
    }
  }

  method GraphPeer(s: Settings, hash: Node -> int, client: ClientId, ins: seq<Graph>) returns (outs: seq<Routed<Graph>>)
    requires forall g :: g in ins ==> g.client == client
    ensures GraphStage.GraphsResult(hash, client, ins, outs)
  {
    hide GraphStage.GraphsResult, GraphStage.UC4AggregateGraphs.Valid, GL.GraphLedger.Valid, GL.GraphLedger.Held;
    var spill := new Spill.MultiShardSpill<GL.Line>(s.graphBuffer);
    var ledger := new GL.GraphLedger(spill, s.nodeShard);
    var node := new GraphStage.UC4AggregateGraphs(ledger, hash, s.graphThreshold);
    var i := 0;
    while i < |ins|
      invariant 0 <= i <= |ins| && node.Valid() && node.Hist(client) == ins[..i]
    {
      assert ins[..i + 1] == ins[..i] + [ins[i]];
      node.Aggregate(ins[i]);
      i := i + 1;
    }
    assert ins[..i] == ins;
    outs := node.GetResult(client);
  }

  method GraphPeers(s: Settings, hash: Node -> int, client: ClientId, ins: seq<seq<Graph>>)
    returns (outs: seq<seq<Routed<Graph>>>)
    requires forall k, m :: 0 <= k < |ins| && m in ins[k] ==> m.client == client
    ensures |outs| == |ins| && forall k :: 0 <= k < |ins| ==> GraphStage.GraphsResult(hash, client, ins[k], outs[k])
  {
    hide GraphStage.GraphsResult;
    outs := [];
    while |outs| < |ins|
      invariant |outs| <= |ins|
      invariant forall k :: 0 <= k < |outs| ==> GraphStage.GraphsResult(hash, client, ins[k], outs[k])
    {
      var out := GraphPeer(s, hash, client, ins[|outs|]);
      outs := outs + [out];
    }
  }

  method DegreePeer(s: Settings, client: ClientId, ins: seq<Graph>) returns (m: HighDegree)
    requires forall g :: g in ins ==> g.client == client
    ensures DegreeStage.DegreeResult(client, ins, m)
  {
    hide DegreeStage.DegreeResult, DegreeStage.UC4Degree.Valid, GL.GraphLedger.Valid, GL.GraphLedger.Held;
    var spill := new Spill.MultiShardSpill<GL.Line>(s.graphBuffer);
    var ledger := new GL.GraphLedger(spill, s.nodeShard);
    var node := new DegreeStage.UC4Degree(ledger, s.degreeThreshold);
    var i := 0;
    while i < |ins|
      invariant 0 <= i <= |ins| && node.Valid() && node.Hist(client) == ins[..i]
    {
      assert ins[..i + 1] == ins[..i] + [ins[i]];
      node.Aggregate(ins[i]);
      i := i + 1;
    }
    assert ins[..i] == ins;
    m := node.GetResult(client);
  }

  method DegreePeers(s: Settings, client: ClientId, ins: seq<seq<Graph>>) returns (outs: seq<HighDegree>)
    requires forall k, m :: 0 <= k < |ins| && m in ins[k] ==> m.client == client
    ensures |outs| == |ins| && forall k :: 0 <= k < |ins| ==> DegreeStage.DegreeResult(client, ins[k], outs[k])
  {
    hide DegreeStage.DegreeResult;
    outs := [];
    while |outs| < |ins|
      invariant |outs| <= |ins| && forall k :: 0 <= k < |outs| ==> DegreeStage.DegreeResult(client, ins[k], outs[k])
    {
      var out := DegreePeer(s, client, ins[|outs|]);
      outs := outs + [out];
    }
  }

  /** A prune node that has received so much of its inputs, and no crash. */
  ghost predicate HasTaken(node: PruneStage.UC4PruneMergeFn, client: ClientId, lefts: seq<HighDegree>,
                           rights: seq<Graph>)
    reads node, node.spill
  {
    node.Valid() && SeqAt(node.lefts, client) == lefts && SeqAt(node.rights, client) == rights
      && node.extra(client) == []
  }

  method NewPruneNode(s: Settings, client: ClientId) returns (node: PruneStage.UC4PruneMergeFn)
    ensures fresh(node) && fresh(node.spill) && HasTaken(node, client, [], [])
  {
    var spill := new Spill.PersistentSpill<GL.Line>(s.graphBuffer);
    node := new PruneStage.UC4PruneMergeFn(spill, s.splitThreshold, s.chunkSize);
  }

  method TakeLeft(node: PruneStage.UC4PruneMergeFn, client: ClientId, lefts: seq<HighDegree>, i: nat,
                  ghost rights: seq<Graph>)
    requires i < |lefts| && lefts[i].client == client && HasTaken(node, client, lefts[..i], rights)
    modifies node
    ensures HasTaken(node, client, lefts[..i + 1], rights)
  {
    hide PruneStage.UC4PruneMergeFn.Valid;
    assert lefts[..i + 1] == lefts[..i] + [lefts[i]];
    node.Left(lefts[i]);
  }

  method TakeRight(node: PruneStage.UC4PruneMergeFn, client: ClientId, ghost lefts: seq<HighDegree>, rights: seq<Graph>,
                   j: nat)
    requires j < |rights| && rights[j].client == client && HasTaken(node, client, lefts, rights[..j])
    modifies node, node.spill
    ensures HasTaken(node, client, lefts, rights[..j + 1])
  {
    hide PruneStage.UC4PruneMergeFn.Valid, Spill.Grown, Spill.AllOnDisk, Spill.PersistentSpill.Eager;
    assert rights[..j + 1] == rights[..j] + [rights[j]];
    node.Right(rights[j]);
  }

  method PruneTaken(node: PruneStage.UC4PruneMergeFn, client: ClientId, ghost lefts: seq<HighDegree>,
                    ghost rights: seq<Graph>) returns (outs: seq<Graph>)
    requires HasTaken(node, client, lefts, rights)
    modifies node, node.spill
    ensures PruneStage.PruneResult(client, PruneStage.HiOut(lefts), PruneStage.HiIn(lefts), rights, outs)
  {
    hide PruneStage.UC4PruneMergeFn.Valid, PruneStage.PruneResult, PruneStage.HiOut, PruneStage.HiIn;
    hide PruneStage.PruneBeside, PruneStage.HubsSent, PruneStage.AllSized;
    outs := node.GetResult(client);
  }

  /** The two inputs of a prune peer arrive interleaved in any way. */
  method PrunePeer(s: Settings, client: ClientId, lefts: seq<HighDegree>, rights: seq<Graph>) returns (outs: seq<Graph>)
    requires forall m :: m in lefts ==> m.client == client
    requires forall g :: g in rights ==> g.client == client
    ensures PruneStage.PruneResult(client, PruneStage.HiOut(lefts), PruneStage.HiIn(lefts), rights, outs)
  {
    hide PruneStage.PruneResult, PruneStage.HiOut, PruneStage.HiIn, HasTaken;
    var node := NewPruneNode(s, client);
    var i, j := 0, 0;
    assert lefts[..i] == [] && rights[..j] == [];
    while i < |lefts| || j < |rights|
      invariant 0 <= i <= |lefts| && 0 <= j <= |rights| && HasTaken(node, client, lefts[..i], rights[..j])
      decreases |lefts| - i + |rights| - j
    {
      var leftFirst: bool := *;
      if i < |lefts| && (leftFirst || j == |rights|) {
        TakeLeft(node, client, lefts, i, rights[..j]);
        i := i + 1;
      } else {
        TakeRight(node, client, lefts[..i], rights, j);
        j := j + 1;
      }
    }
    assert lefts[..i] == lefts && rights[..j] == rights;
    outs := PruneTaken(node, client, lefts, rights);
  }

  /** Every prune peer gets all the high-degree sets, and its share of the graph. */
  method PrunePeers(s: Settings, client: ClientId, high: seq<HighDegree>, ins: seq<seq<Graph>>)
    returns (lefts: seq<seq<HighDegree>>, outs: seq<seq<Graph>>)
    requires forall m :: m in high ==> m.client == client
    requires forall k, m :: 0 <= k < |ins| && m in ins[k] ==> m.client == client
    ensures |lefts| == |outs| == |ins| && forall k :: 0 <= k < |ins| ==> Pruned(client, high, ins[k], lefts[k], outs[k])
  {
    hide Pruned;
    lefts, outs := [], [];
    while |outs| < |ins|
      invariant |lefts| == |outs| <= |ins|
      invariant forall k :: 0 <= k < |outs| ==> Pruned(client, high, ins[k], lefts[k], outs[k])
    {
      var left, out := PruneOne(s, client, high, ins[|outs|]);
      lefts, outs := lefts + [left], outs + [out];
    }
  }

  ghost predicate Pruned(client: ClientId, high: seq<HighDegree>, rights: seq<Graph>, lefts: seq<HighDegree>,
                         outs: seq<Graph>)
  {
    && multiset(lefts) == multiset(high)
    && PruneStage.PruneResult(client, PruneStage.HiOut(lefts), PruneStage.HiIn(lefts), rights, outs)
  }

  method PruneOne(s: Settings, client: ClientId, high: seq<HighDegree>, rights: seq<Graph>)
    returns (lefts: seq<HighDegree>, outs: seq<Graph>)
    requires forall m :: m in high ==> m.client == client
    requires forall m :: m in rights ==> m.client == client
    ensures Pruned(client, high, rights, lefts, outs)
  {
    hide PruneStage.PruneResult, PruneStage.HiOut, PruneStage.HiIn;
    lefts := Shuffle(high);
    forall m | m in lefts ensures m in high {
      assert m in multiset(lefts);
    }
    outs := PrunePeer(s, client, lefts, rights);
  }

  method CountPeer(s: Settings, hash: Path -> int, client: ClientId, ins: seq<Graph>)
    returns (outs: seq<Routed<PathCounts>>)
    requires forall g :: g in ins ==> g.client == client
    ensures CountStage.CountsResult(hash, client, ins, outs)
  {
    hide CountStage.CountsResult, CountStage.UC4CountPaths.Valid, PL.PathLedger.Valid, PL.PathLedger.Held;
    var spill := new Spill.MultiShardSpill<PL.Line>(s.pathBuffer);
    var ledger := new PL.PathLedger(spill, s.pathShard);
    var node := new CountStage.UC4CountPaths(ledger, hash, s.countThreshold);
    var i := 0;
    while i < |ins|
      invariant 0 <= i <= |ins| && node.Valid() && node.Hist(client) == ins[..i]
    {
      assert ins[..i + 1] == ins[..i] + [ins[i]];
      node.Aggregate(ins[i]);
      i := i + 1;
    }
    assert ins[..i] == ins;
    outs := node.GetResult(client);
  }

  method CountPeers(s: Settings, hash: Path -> int, client: ClientId, ins: seq<seq<Graph>>)
    returns (outs: seq<seq<Routed<PathCounts>>>)
    requires forall k, m :: 0 <= k < |ins| && m in ins[k] ==> m.client == client
    ensures |outs| == |ins| && forall k :: 0 <= k < |ins| ==> CountStage.CountsResult(hash, client, ins[k], outs[k])
  {
    hide CountStage.CountsResult;
    outs := [];
    while |outs| < |ins|
      invariant |outs| <= |ins|
      invariant forall k :: 0 <= k < |outs| ==> CountStage.CountsResult(hash, client, ins[k], outs[k])
    {
      var out := CountPeer(s, hash, client, ins[|outs|]);
      outs := outs + [out];
    }
  }

  method PathPeer(s: Settings, client: ClientId, ins: seq<PathCounts>) returns (outs: seq<PathCounts>)
    requires forall m :: m in ins ==> m.client == client
    ensures PathStage.PathsResult(client, ins, outs)
  {
    hide PathStage.PathsResult, PL.PathLedger.Valid, PL.PathLedger.Held;
    var spill := new Spill.MultiShardSpill<PL.Line>(s.pathBuffer);
    var ledger := new PL.PathLedger(spill, s.pathShard);
    var node := new PathStage.UC4AggregatePaths(ledger, s.pathThreshold);
    var i := 0;
    while i < |ins|
      invariant 0 <= i <= |ins| && node.Valid() && node.Hist(client) == ins[..i]
    {
      assert ins[..i + 1] == ins[..i] + [ins[i]];
      node.Aggregate(ins[i]);
      i := i + 1;
    }
    assert ins[..i] == ins;
    outs := node.GetResult(client);
  }

  method PathPeers(s: Settings, client: ClientId, ins: seq<seq<PathCounts>>) returns (outs: seq<seq<PathCounts>>)
    requires forall k, m :: 0 <= k < |ins| && m in ins[k] ==> m.client == client
    ensures |outs| == |ins| && forall k :: 0 <= k < |ins| ==> PathStage.PathsResult(client, ins[k], outs[k])
  {
    hide PathStage.PathsResult;
    outs := [];
    while |outs| < |ins|
      invariant |outs| <= |ins| && forall k :: 0 <= k < |outs| ==> PathStage.PathsResult(client, ins[k], outs[k])
    {
      var out := PathPeer(s, client, ins[|outs|]);
      outs := outs + [out];
    }
  }

  method JoinPeer(client: ClientId, ins: seq<PathCounts>) returns (accounts: set<Node>)
    requires forall m :: m in ins ==> m.client == client
    ensures EndpointsOf(accounts, iset p | p in JoinStage.PathsOf(ins))
  {
    var node := new JoinStage.UC4Join();
    var i := 0;
    while i < |ins|
      invariant 0 <= i <= |ins| && node.Valid() && Common.SeqAt(node.history, client) == ins[..i]
    {
      assert ins[..i + 1] == ins[..i] + [ins[i]];
      node.Join(ins[i]);
      i := i + 1;
    }
    assert ins[..i] == ins;
    accounts := node.GetResponse(client);
  }

  // ---- The pipeline --------------------------------------------------------------------------------

  /** A merge deals its results out in turn. */
  function Dealt<M>(ms: seq<M>): (outs: seq<Routed<M>>)
    ensures |outs| == |ms| && Messages(outs) == ms
  {
    seq(|ms|, i requires 0 <= i < |ms| => Routed(ms[i], i))
  }

  function DealtEach<M>(outs: seq<seq<M>>): (dealt: seq<seq<Routed<M>>>)
    ensures |dealt| == |outs|
  {
    seq(|outs|, k requires 0 <= k < |outs| => Dealt(outs[k]))
  }

  lemma {:induction false} DealtMessages<M(!new)>(outs: seq<seq<M>>)
    ensures Messages(Flatten(DealtEach(outs))) == Flatten(outs)
  {
    if outs != [] {
      DealtMessages(outs[1..]);
      assert DealtEach(outs)[1..] == DealtEach(outs[1..]);
      assert Messages(Dealt(outs[0]) + Flatten(DealtEach(outs[1..]))) == outs[0] + Flatten(outs[1..]);
    }
  }

  /** Whatever the numbers of peers, the hashes, the thresholds, the batching and the order of delivery,
      the answer is the reference program's. */
  method Answer(s: Settings, h: Hashes, client: ClientId, batches: seq<seq<Edge>>) returns (accounts: set<Node>)
    ensures IsAnswer(Flatten(batches), accounts)
  {
    hide GroupStage.GroupResult, GraphStage.GraphsResult, DegreeStage.DegreeResult, PruneStage.PruneResult;
    hide CountStage.CountsResult, PathStage.PathsResult, JoinStage.PathsOf, PruneStage.HiOut, PruneStage.HiIn, IsAnswer;
    hide RoutedTo, Delivered, Flatten;
    var grouped := GroupPeer(h.group, client, batches);
    GroupClients(h.group, client, batches, grouped);
    var graphIn := Deliver(Flatten(grouped), s.graphPeers);
    Received(Flatten(grouped), graphIn);
    var graphOut := GraphPeers(s, h.graph, client, graphIn);
    GraphClients(h.graph, client, graphIn, graphOut);
    var degreeIn := Deliver(Flatten(grouped), s.degreePeers);
    Received(Flatten(grouped), degreeIn);
    var high := DegreePeers(s, client, degreeIn);
    DegreeClients(client, degreeIn, high);
    var pruneIn := Deliver(Flatten(graphOut), s.prunePeers);
    Received(Flatten(graphOut), pruneIn);
    var pruneLeft, pruned := PrunePeers(s, client, high, pruneIn);
    PruneClients(client, high, pruneIn, pruneLeft, pruned);
    var countIn := Deliver(Flatten(DealtEach(pruned)), s.countPeers);
    DealtMessages(pruned);
    Received(Flatten(DealtEach(pruned)), countIn);
    var counted := CountPeers(s, h.path, client, countIn);
    CountClients(h.path, client, countIn, counted);
    var pathIn := Deliver(Flatten(counted), s.pathPeers);
    Received(Flatten(counted), pathIn);
    var paths := PathPeers(s, client, pathIn);
    PathClients(client, pathIn, paths);
    var joinIn := Shuffle(Flatten(paths));
    SameMembers(joinIn, Flatten(paths));
    accounts := JoinPeer(client, joinIn);
    ghost var run := Run(client, batches, grouped, graphIn, graphOut, degreeIn, high, pruneLeft, pruneIn, pruned,
                         countIn, counted, pathIn, paths, joinIn, accounts);
    RunIs(h, run);
    PipelineAnswers(h, run);
  }

  lemma SameMembers<M>(a: seq<M>, b: seq<M>)
    requires multiset(a) == multiset(b)
    ensures forall x :: x in a ==> x in b
  {
    forall x | x in a ensures x in b {
      assert x in multiset(a);
    }
  }

  // Every message of a client's run carries that client.

  lemma GroupClients(hash: Node -> int, client: ClientId, batches: seq<seq<Edge>>, grouped: seq<seq<Routed<Graph>>>)
    requires |grouped| == |batches|
    requires forall i :: 0 <= i < |batches| ==> GroupStage.GroupResult(hash, client, batches[i], grouped[i])
    ensures forall m :: m in Messages(Flatten(grouped)) ==> m.client == client
  {
    forall k | 0 <= k < |Flatten(grouped)| ensures Flatten(grouped)[k].message.client == client {
      FlattenMember(grouped, Flatten(grouped)[k]);
      var i :| 0 <= i < |grouped| && Flatten(grouped)[k] in grouped[i];
      assert GroupStage.GroupResult(hash, client, batches[i], grouped[i]);
    }
  }

  lemma GraphClients(hash: Node -> int, client: ClientId, ins: seq<seq<Graph>>, outs: seq<seq<Routed<Graph>>>)
    requires |outs| == |ins|
    requires forall k :: 0 <= k < |ins| ==> GraphStage.GraphsResult(hash, client, ins[k], outs[k])
    ensures forall m :: m in Messages(Flatten(outs)) ==> m.client == client
  {
    forall k | 0 <= k < |Flatten(outs)| ensures Flatten(outs)[k].message.client == client {
      FlattenMember(outs, Flatten(outs)[k]);
      var i :| 0 <= i < |outs| && Flatten(outs)[k] in outs[i];
      assert GraphStage.GraphsResult(hash, client, ins[i], outs[i]);
      assert GraphStage.WholeNodes(hash, client, ins[i], Flatten(outs)[k]);
    }
  }

  lemma DegreeClients(client: ClientId, ins: seq<seq<Graph>>, outs: seq<HighDegree>)
    requires |outs| == |ins| && forall k :: 0 <= k < |ins| ==> DegreeStage.DegreeResult(client, ins[k], outs[k])
    ensures forall m :: m in outs ==> m.client == client
  {
    forall k | 0 <= k < |outs| ensures outs[k].client == client {
      assert DegreeStage.DegreeResult(client, ins[k], outs[k]);
    }
  }

  lemma PruneClients(client: ClientId, high: seq<HighDegree>, ins: seq<seq<Graph>>, lefts: seq<seq<HighDegree>>,
                     outs: seq<seq<Graph>>)
    requires |lefts| == |outs| == |ins|
    requires forall k :: 0 <= k < |ins| ==> Pruned(client, high, ins[k], lefts[k], outs[k])
    ensures forall m :: m in Flatten(outs) ==> m.client == client
  {
    forall m | m in Flatten(outs) ensures m.client == client {
      FlattenMember(outs, m);
      var i :| 0 <= i < |outs| && m in outs[i];
      assert Pruned(client, high, ins[i], lefts[i], outs[i]);
    }
  }

  lemma CountClients(hash: Path -> int, client: ClientId, ins: seq<seq<Graph>>, outs: seq<seq<Routed<PathCounts>>>)
    requires |outs| == |ins|
    requires forall k :: 0 <= k < |ins| ==> CountStage.CountsResult(hash, client, ins[k], outs[k])
    ensures forall m :: m in Messages(Flatten(outs)) ==> m.client == client
  {
    forall k | 0 <= k < |Flatten(outs)| ensures Flatten(outs)[k].message.client == client {
      FlattenMember(outs, Flatten(outs)[k]);
      var i :| 0 <= i < |outs| && Flatten(outs)[k] in outs[i];
      assert CountStage.CountsResult(hash, client, ins[i], outs[i]);
    }
  }

  lemma PathClients(client: ClientId, ins: seq<seq<PathCounts>>, outs: seq<seq<PathCounts>>)
    requires |outs| == |ins| && forall k :: 0 <= k < |ins| ==> PathStage.PathsResult(client, ins[k], outs[k])
    ensures forall m :: m in Flatten(outs) ==> m.client == client
  {
    forall m | m in Flatten(outs) ensures m.client == client {
      FlattenMember(outs, m);
      var i :| 0 <= i < |outs| && m in outs[i];
      assert PathStage.PathsResult(client, ins[i], outs[i]);
    }
  }

  /** What was composed is a run of the pipeline. */
  lemma RunIs(h: Hashes, run: Run)
    requires |run.grouped| == |run.batches|
    requires forall i ::
               0 <= i < |run.batches| ==> GroupStage.GroupResult(h.group, run.client, run.batches[i], run.grouped[i])
    requires RoutedTo(Flatten(run.grouped), run.graphIn) && RoutedTo(Flatten(run.grouped), run.degreeIn)
    requires |run.graphOut| == |run.graphIn| && forall k :: 0 <= k < |run.graphIn| ==>
               GraphStage.GraphsResult(h.graph, run.client, run.graphIn[k], run.graphOut[k])
    requires |run.degreeOut| == |run.degreeIn| && forall k :: 0 <= k < |run.degreeIn| ==>
               DegreeStage.DegreeResult(run.client, run.degreeIn[k], run.degreeOut[k])
    requires RoutedTo(Flatten(run.graphOut), run.pruneIn) && |run.pruneLeft| == |run.pruneOut| == |run.pruneIn|
    requires forall k :: 0 <= k < |run.pruneIn| ==>
               Pruned(run.client, run.degreeOut, run.pruneIn[k], run.pruneLeft[k], run.pruneOut[k])
    requires RoutedTo(Flatten(DealtEach(run.pruneOut)), run.countIn)
    requires |run.countOut| == |run.countIn| && forall k :: 0 <= k < |run.countIn| ==>
               CountStage.CountsResult(h.path, run.client, run.countIn[k], run.countOut[k])
    requires RoutedTo(Flatten(run.countOut), run.pathIn) && |run.pathOut| == |run.pathIn|
    requires forall k :: 0 <= k < |run.pathIn| ==> PathStage.PathsResult(run.client, run.pathIn[k], run.pathOut[k])
    requires multiset(run.joinIn) == multiset(Flatten(run.pathOut))
    requires EndpointsOf(run.accounts, iset p | p in JoinStage.PathsOf(run.joinIn))
    ensures IsRun(h, run)
  {
    hide GroupStage.GroupResult, GraphStage.GraphsResult, DegreeStage.DegreeResult, PruneStage.PruneResult;
    hide CountStage.CountsResult, PathStage.PathsResult, JoinStage.PathsOf, PruneStage.HiOut, PruneStage.HiIn, Flatten;
    DealtMessages(run.pruneOut);
    forall k | 0 <= k < |run.pruneIn|
      ensures multiset(run.pruneLeft[k]) == multiset(run.degreeOut)
      ensures PruneStage.PruneResult(run.client, PruneStage.HiOut(run.pruneLeft[k]), PruneStage.HiIn(run.pruneLeft[k]),
                                     run.pruneIn[k], run.pruneOut[k])
    {
      assert Pruned(run.client, run.degreeOut, run.pruneIn[k], run.pruneLeft[k], run.pruneOut[k]);
    }
  }
}

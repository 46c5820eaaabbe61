/** A path counted too often, and what comes of it. The last UC4 aggregate has nothing on the disk when it
    checkpoints. A message fills its dictionary, which is spilled to files that the checkpoint does not
    know, and the process dies. The message is delivered again and counted again; with one more message a
    path that was met four times is held five times and passes the threshold. */
module DoubleCount {
  import opened Common
  import opened Spill
  import opened Uc4Graph
  import opened PathLedger
  import opened Uc4AggregatePaths

  const CLIENT: ClientId := 7

  /** As many paths as the dictionary may hold, each met this often. */
  function Times(paths: nat, count: Count): PathCounts {
    PathCounts(CLIENT, map i | 1 <= i <= paths :: Path(0, i) := count)
  }

  lemma {:induction false} HasSize(paths: nat, count: Count)
    ensures |Times(paths, count).counts| == paths
  {
    if paths > 0 {
      HasSize(paths - 1, count);
      var before, after := Times(paths - 1, count).counts, Times(paths, count).counts;
      forall p ensures p in after.Keys <==> p in before.Keys || p == Path(0, paths) {}
      assert after.Keys == before.Keys + {Path(0, paths)};
      assert |after| == |after.Keys| && |before| == |before.Keys|;
    }
  }

  /** A smaller dictionary misses one of the paths. */
  lemma Missing(paths: nat, count: Count, dict: PathDict) returns (q: Path)
    requires |dict| < paths
    ensures q in Times(paths, count).counts && q !in dict
  {
    HasSize(paths, count);
    var all := Times(paths, count).counts;
    assert |all| == |all.Keys| && |dict| == |dict.Keys|;
    if all.Keys <= dict.Keys {
      SubsetOfSameSize(all.Keys, dict.Keys);
    }
    q :| q in all.Keys && q !in dict.Keys;
  }

  lemma ReceivedBoth(once: PathCounts, thrice: PathCounts, q: Path)
    requires once.client == CLIENT && thrice.client == CLIENT
    ensures Where(CountsFrom(CLIENT), [once]) == [once]
    ensures Where(CountsFrom(CLIENT), [once, thrice]) == [once, thrice]
    ensures Total([once], q) == NumberAt(once.counts, q)
    ensures Total([once, thrice], q) == NumberAt(once.counts, q) + NumberAt(thrice.counts, q)
  {
    hide *;
    NoneCounted(CLIENT);
    CountsOneMore([], once, CLIENT);
    CountsOneMore([once], thrice, CLIENT);
    assert [] + [once] == [once] && [once] + [thrice] == [once, thrice];
    TotalSnoc([], once, q);
    TotalSnoc([once], thrice, q);
  }

  lemma IsTimes(paths: nat, q: Path)
    requires q in Times(paths, 1).counts
    ensures forall count: Count :: NumberAt(Times(paths, count).counts, q) == count
    ensures forall count: Count :: Times(paths, count).client == CLIENT
  {}

  /** The node after the crash and the replay: q was met four times and is held five times. */
  method Crash(threshold: nat) returns (node: UC4AggregatePaths, ghost q: Path)
    requires threshold > 0
    ensures fresh(node) && fresh(node.ledger) && fresh(node.ledger.spill) && node.ledger.Valid()
    ensures node.Hist(CLIENT) == [Times(threshold, 1), Times(threshold, 3)]
    ensures Total(node.Hist(CLIENT), q) == 4 && node.ledger.Held(CLIENT, q) == 5
  {
    hide Total, Where, CountsFrom, Grown, AllOnDisk, Covered, Times, NumberAt;
    hide PathLedger.Valid, PathLedger.Held, PathLedger.OnDisk, PathLedger.Kept;
    var spill := new MultiShardSpill<Line>((k, f) => true);
    var ledger := new PathLedger(spill, (c, p) => 0);
    node := new UC4AggregatePaths(ledger, threshold);
    var once, thrice := Times(threshold, 1), Times(threshold, 3);
    ghost var before, atCrash, memory := node.CountThroughCrash([once], [once, thrice]);
    q := MissingFrom(node, threshold, memory);
    IsTimes(threshold, q);
    ReceivedBoth(once, thrice, q);
    ledger.KeptOnDisk(before, atCrash, CLIENT, q);
  }

  lemma MissingFrom(node: UC4AggregatePaths, paths: nat, memory: map<ClientId, PathDict>) returns (q: Path)
    requires AllBelow(memory, node.threshold) && node.threshold == paths > 0
    ensures q in Times(paths, 1).counts && NumberAt(DictAt(memory, CLIENT), q) == 0
  {
    q := Missing(paths, 1, DictAt(memory, CLIENT));
  }

  /** With any threshold for spilling: a path met four times in all is sent on as met five times. */
  method FourBecomesFive(threshold: nat) returns (outs: seq<PathCounts>)
    requires threshold > 0
    ensures exists m, q :: m in outs && q in m.counts && m.counts[q] == 5
                        && Total([Times(threshold, 1), Times(threshold, 3)], q) == 4 < MIN_PATH_COUNT
  {
    hide Total, Times, PathLedger.Valid, PathLedger.Held, PathsResult;
    ghost var q;
    var node;
    node, q := Crash(threshold);
    outs := node.GetResult(CLIENT);
    Sent(outs, q);
  }

  lemma Sent(outs: seq<PathCounts>, q: Path)
    ensures Total(outs, q) > 0 ==> exists m :: m in outs && q in m.counts
  {
    if forall m :: m in outs ==> q !in m.counts {
      SumOfZero(CountOf(q), outs);
    }
  }
}

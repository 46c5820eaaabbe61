/** UC4AggregatePaths: adds up the partial counts of every path of its shard and keeps the
    paths counted at least five times. */
module Uc4AggregatePaths {
  import opened Common
  import opened Spill
  import opened Uc4Graph
  import opened PathLedger

  const SPILL_THRESHOLD := 100_000

  ghost function CountOf(p: Path): PathCounts -> nat {
    (m: PathCounts) => NumberAt(m.counts, p)
  }

  /** Total count of p over a sequence of messages. */
  ghost function Total(msgs: seq<PathCounts>, p: Path): nat {
    SumOf(CountOf(p), msgs)
  }

  lemma TotalSnoc(msgs: seq<PathCounts>, m: PathCounts, p: Path)
    ensures Total(msgs + [m], p) == Total(msgs, p) + NumberAt(m.counts, p)
  {
    SumOfConcat(CountOf(p), msgs, [m]);
    SumOfOne(CountOf(p), m);
  }

  function CountsFrom(client: ClientId): PathCounts -> bool {
    (m: PathCounts) => m.client == client
  }

  lemma CountsOneMore(msgs: seq<PathCounts>, msg: PathCounts, client: ClientId)
    ensures Where(CountsFrom(client), msgs + [msg])
            == if msg.client == client then Where(CountsFrom(client), msgs) + [msg] else Where(CountsFrom(client), msgs)
  {
    WhereSnoc(CountsFrom(client), msgs, msg);
  }

  lemma NoneCounted(client: ClientId)
    ensures Where(CountsFrom(client), []) == [] && forall p :: Total([], p) == 0
  {}

  ghost function Thresholded(total: nat): nat {
    if total >= MIN_PATH_COUNT then total else 0
  }

  /** Exactly the paths of these totals that are at least five are sent, each once, with its total. */
  ghost predicate Emits(client: ClientId, totals: Path -> nat, outs: seq<PathCounts>) {
    && (forall m :: m in outs ==> m.client == client && FullTotals(totals, m))
    && (forall p :: Total(outs, p) == Thresholded(totals(p)))
  }

  ghost predicate FullTotals(totals: Path -> nat, m: PathCounts) {
    forall p :: p in m.counts ==> m.counts[p] == totals(p) >= MIN_PATH_COUNT
  }

  ghost function TotalsOf(ins: seq<PathCounts>): Path -> nat {
    p => Total(ins, p)
  }

  /** What one aggregator must emit after the messages `ins`: exactly the paths whose counts
      add up to at least five, each once, with its total. */
  ghost predicate PathsResult(client: ClientId, ins: seq<PathCounts>, outs: seq<PathCounts>) {
    Emits(client, TotalsOf(ins), outs)
  }

  /** The emitted keys are exactly the qualifying paths. */
  lemma EmittedKeys(client: ClientId, ins: seq<PathCounts>, outs: seq<PathCounts>, p: Path)
    requires PathsResult(client, ins, outs)
    ensures (exists m :: m in outs && p in m.counts) <==> Total(ins, p) >= MIN_PATH_COUNT
  {
    if m :| m in outs && p in m.counts {
      assert FullTotals(TotalsOf(ins), m);
    }
    if forall m :: m in outs ==> p !in m.counts {
      SumOfZero(CountOf(p), outs);
      assert Thresholded(TotalsOf(ins)(p)) == 0;
    }
  }

  class UC4AggregatePaths {
    const ledger: PathLedger
    const threshold: nat
    ghost var history: map<ClientId, seq<PathCounts>>

    ghost function Hist(client: ClientId): seq<PathCounts>
      reads this
    {
      SeqAt(history, client)
    }

    /** Conservation: for every client and path, memory plus disk is the total received. */
    ghost predicate Valid()
      reads this, ledger, ledger.spill
    {
      && ledger.Valid()
      && (forall client, p :: ledger.Held(client, p) == Total(Hist(client), p))
    }

    constructor (ledger: PathLedger, threshold: nat := SPILL_THRESHOLD)
      requires ledger.Valid() && forall cl, p :: ledger.Held(cl, p) == 0
      ensures Valid() && history == map[] && this.ledger == ledger && this.threshold == threshold
    {
      this.ledger, this.threshold := ledger, threshold;
      history := map[];
    }

    method Aggregate(msg: PathCounts)
      requires Valid()
      modifies this, ledger, ledger.spill
      ensures Valid()
      ensures history == old(history)[msg.client := old(Hist(msg.client)) + [msg]]
      ensures old(AllBelow(ledger.paths, threshold)) ==> AllBelow(ledger.paths, threshold)
    {
      hide Total, Grown, NumberAt, PathLedger.Valid, PathLedger.Held;
      Count(msg);
      forall p { TotalSnoc(Hist(msg.client), msg, p); }
      history := history[msg.client := Hist(msg.client) + [msg]];
    }

    method CountAll(msgs: seq<PathCounts>)
      requires ledger.Valid()
      modifies this, ledger, ledger.spill
      ensures ledger.Valid() && Grown(old(ledger.spill.files), ledger.spill.files)
      ensures forall cl :: Hist(cl) == old(Hist(cl)) + Where(CountsFrom(cl), msgs)
      ensures forall cl, p :: ledger.Held(cl, p) == old(ledger.Held(cl, p)) + Total(Where(CountsFrom(cl), msgs), p)
      ensures old(AllBelow(ledger.paths, threshold)) ==> AllBelow(ledger.paths, threshold)
      ensures ledger.spill.Eager() && old(AllOnDisk(ledger.spill.files)) ==> AllOnDisk(ledger.spill.files)
    {
      hide Grown, Total, NumberAt, Where, CountsFrom, AllOnDisk, AllBelow, PathLedger.Valid, PathLedger.Held;
      hide MultiShardSpill.Eager;
      GrownNothing(ledger.spill.files);
      var i := 0;
      forall cl { NoneCounted(cl); }
      while i < |msgs|
        invariant 0 <= i <= |msgs| && ledger.Valid() && Grown(old(ledger.spill.files), ledger.spill.files)
        invariant old(AllBelow(ledger.paths, threshold)) ==> AllBelow(ledger.paths, threshold)
        invariant ledger.spill.Eager() && old(AllOnDisk(ledger.spill.files)) ==> AllOnDisk(ledger.spill.files)
        invariant forall cl :: Hist(cl) == old(Hist(cl)) + Where(CountsFrom(cl), msgs[..i])
        invariant forall cl, p ::
                    ledger.Held(cl, p) == old(ledger.Held(cl, p)) + Total(Where(CountsFrom(cl), msgs[..i]), p)
      {
        ghost var before, msg := ledger.spill.files, msgs[i];
        Count(msgs[i]);
        GrownTwice(old(ledger.spill.files), before, ledger.spill.files);
        assert msgs[..i + 1] == msgs[..i] + [msg];
        forall cl, p { CountedOne(msgs[..i], msg, cl, p); }
        ghost var earlier := history;
        history := history[msg.client := Hist(msg.client) + [msg]];
        forall cl ensures Hist(cl) == old(Hist(cl)) + Where(CountsFrom(cl), msgs[..i + 1]) {
          CountsOneMore(msgs[..i], msg, cl);
          assert Hist(cl) == SeqAt(earlier, cl) + (if msg.client == cl then [msg] else []);
        }
        i := i + 1;
      }
      assert msgs[..i] == msgs;
    }

    lemma CountedOne(msgs: seq<PathCounts>, msg: PathCounts, client: ClientId, p: Path)
      ensures Total(Where(CountsFrom(client), msgs + [msg]), p) ==
              Total(Where(CountsFrom(client), msgs), p) + (if msg.client == client then NumberAt(msg.counts, p) else 0)
    {
      hide Total, NumberAt, Where;
      CountsOneMore(msgs, msg, client);
      TotalSnoc(Where(CountsFrom(client), msgs), msg, p);
    }

    /** A checkpoint, some more messages, the death of the process, a restore and a replay. `before` is
        what the files were after the checkpoint, `atCrash` and `memory` what the files and the memory
        were when the process died. The totals are too high by what the lines count that were lost but
        had reached an uncovered file; so they are right if and only if every file had an open handle at
        the checkpoint or did not grow on the disk after it. */
    method CountThroughCrash(lost: seq<PathCounts>, replay: seq<PathCounts>)
      returns (ghost before: map<Key, FileState<Line>>, ghost atCrash: map<Key, FileState<Line>>,
               ghost memory: map<ClientId, PathDict>)
      requires Valid()
      modifies this, ledger, ledger.spill
      ensures AllOnDisk(before) && Grown(before, atCrash)
      ensures forall cl, p :: ledger.OnDisk(before, cl, p) == old(ledger.Held(cl, p))
      ensures forall k :: FileAt(before, k).Open? <==>
                old(FileAt(ledger.spill.files, k)).Open? || ledger.InMemory(old(ledger.paths), k)
      ensures forall cl, p :: NumberAt(DictAt(memory, cl), p) + ledger.OnDisk(atCrash, cl, p)
                           == Total(old(Hist(cl)), p) + Total(Where(CountsFrom(cl), lost), p)
      ensures AllBelow(memory, threshold)
      ensures ledger.spill.Eager() ==> AllOnDisk(atCrash)
      ensures ledger.Valid()
      ensures forall cl :: Hist(cl) == old(Hist(cl)) + Where(CountsFrom(cl), replay)
      ensures forall cl, p :: ledger.Held(cl, p) == Total(Hist(cl), p) + ledger.Kept(before, atCrash, cl, p)
      ensures forall cl, p :: ledger.Kept(before, atCrash, cl, p) <= Total(Where(CountsFrom(cl), lost), p)
      ensures Valid() <==> Covered(before, atCrash)
    {
      hide Grown, Total, Where, CountsFrom, Spilled, FileAt, AllOnDisk, Covered, OpenLengths;
      hide FileState.Content, FileState.Flushed, PathLedger.Valid, PathLedger.Kept, PathLedger.OnDisk;
      hide PathLedger.InMemory, MultiShardSpill.Eager;
      var committed := ledger.SnapshotState();
      before := ledger.spill.files;
      ghost var saved := history;
      CountAll(lost);
      atCrash, memory := ledger.spill.files, ledger.paths;
      ledger.CrashAndRestore(committed, before);
      history := saved;
      CountAll(replay);
      forall cl, p
        ensures Total(Hist(cl), p) == Total(SeqAt(saved, cl), p) + Total(Where(CountsFrom(cl), replay), p)
      {
        SumOfConcat(CountOf(p), SeqAt(saved, cl), Where(CountsFrom(cl), replay));
        TotalIs(p);
      }
    }

    lemma TotalIs(p: Path)
      ensures forall msgs :: Total(msgs, p) == SumOf(CountOf(p), msgs)
    {}

    method Count(msg: PathCounts)
      requires ledger.Valid()
      modifies ledger, ledger.spill
      ensures ledger.Valid() && Grown(old(ledger.spill.files), ledger.spill.files)
      ensures old(AllBelow(ledger.paths, threshold)) ==> AllBelow(ledger.paths, threshold)
      ensures ledger.spill.Eager() && old(AllOnDisk(ledger.spill.files)) ==> AllOnDisk(ledger.spill.files)
      ensures forall cl, p ::
                ledger.Held(cl, p)
                == old(ledger.Held(cl, p)) + (if cl == msg.client then NumberAt(msg.counts, p) else 0)
    {
      hide Grown, NumberAt, AllOnDisk, FileAt, PathLedger.Valid, PathLedger.Held, PathLedger.InMemory;
      hide MultiShardSpill.Eager;
      GrownNothing(ledger.spill.files);
      var dict := AddCounts(DictAt(ledger.paths, msg.client), msg.counts);
      ledger.Store(msg.client, dict);
      if |ledger.paths[msg.client]| >= threshold {
        ledger.SpillToDisk(msg.client);
      }
    }

    method AddCounts(dict0: PathDict, counts: PathDict) returns (dict: PathDict)
      ensures forall p :: NumberAt(dict, p) == NumberAt(dict0, p) + NumberAt(counts, p)
    {
      dict := dict0;
      var todo := counts.Keys;
      while todo != {}
        invariant todo <= counts.Keys
        invariant forall p :: NumberAt(dict, p) == NumberAt(dict0, p) + (if p in todo then 0 else NumberAt(counts, p))
        decreases |todo|
      {
        var p := Choose(todo);
        dict := dict[p := NumberAt(dict, p) + counts[p]];
        todo := todo - {p};
      }
    }

    /** Re-sums every shard file and keeps the paths at or over the threshold: those held at least five
        times, which are those received at least five times unless a crash has left lines behind. */
    method GetResult(client: ClientId) returns (outs: seq<PathCounts>)
      requires ledger.Valid()
      modifies ledger, ledger.spill
      ensures ledger.Valid() && client !in ledger.paths
      ensures forall cl, p :: ledger.Held(cl, p) == old(ledger.Held(cl, p))
      ensures forall m, p :: m in outs && p in m.counts ==> m.client == client && m.counts[p] == ledger.Held(client, p)
      ensures forall p :: Total(outs, p) == Thresholded(ledger.Held(client, p))
      ensures old(Valid()) ==> Valid() && PathsResult(client, Hist(client), outs)
    {
      hide Total, NumberAt, FullTotals, Thresholded, PathLedger.Valid, PathLedger.Held;
      ghost var held := imap p: Path | true :: ledger.Held(client, p);
      ghost var totals: Path -> nat := p => if p in held then held[p] else 0;
      var shards := ledger.ShardsToSum(client);
      outs := EmitShards(client, shards, totals);
      SameTotals(client, totals, TotalsOf(Hist(client)), outs);
      EmittedTotals(client, totals, outs);
    }

    lemma SameTotals(client: ClientId, totals: Path -> nat, others: Path -> nat, outs: seq<PathCounts>)
      requires Emits(client, totals, outs)
      ensures (forall p :: totals(p) == others(p)) ==> Emits(client, others, outs)
    {
      hide Total;
      if forall p :: totals(p) == others(p) {
        forall m | m in outs ensures m.client == client && FullTotals(others, m) {
          assert FullTotals(totals, m);
        }
      }
    }

    lemma EmittedTotals(client: ClientId, totals: Path -> nat, outs: seq<PathCounts>)
      requires Emits(client, totals, outs)
      ensures forall m, p :: m in outs && p in m.counts ==> m.client == client && m.counts[p] == totals(p)
      ensures forall p :: Total(outs, p) == Thresholded(totals(p))
    {
      hide Total, Thresholded;
      forall m, p | m in outs && p in m.counts ensures m.client == client && m.counts[p] == totals(p) {
        assert FullTotals(totals, m);
      }
    }

    /** The shards before position i have been sent. */
    ghost predicate Emitting(client: ClientId, totals: Path -> nat, shards: seq<int>, i: nat, outs: seq<PathCounts>)
      requires i <= |shards|
    {
      && (forall m :: m in outs ==> m.client == client && FullTotals(totals, m))
      && (forall p :: Total(outs, p) == if ledger.Shard(client, p) in shards[i..] then 0 else Thresholded(totals(p)))
    }

    lemma EmitsNothing(client: ClientId, totals: Path -> nat, shards: seq<int>)
      requires forall p :: ledger.Shard(client, p) !in shards ==> totals(p) == 0
      ensures Emitting(client, totals, shards, 0, [])
    {
      assert shards[0..] == shards;
    }

    lemma EmitsShard(client: ClientId, totals: Path -> nat, shards: seq<int>, i: nat, outs: seq<PathCounts>,
                     m: PathCounts)
      requires Increasing(shards) && i < |shards| && Emitting(client, totals, shards, i, outs)
      requires m.client == client && FullTotals(totals, m)
      requires forall p ::
                 NumberAt(m.counts, p) == if ledger.Shard(client, p) == shards[i] then Thresholded(totals(p)) else 0
      ensures Emitting(client, totals, shards, i + 1, outs + [m])
    {
      hide Total, FullTotals, Thresholded;
      assert shards[i..] == [shards[i]] + shards[i + 1..];
      assert shards[i] !in shards[i + 1..];
      forall p { TotalSnoc(outs, m, p); }
    }

    method EmitShards(client: ClientId, shards: seq<int>, ghost totals: Path -> nat) returns (outs: seq<PathCounts>)
      requires ledger.Valid() && client !in ledger.paths && Increasing(shards)
      requires forall p :: ledger.Held(client, p) == totals(p)
      requires forall p :: ledger.Shard(client, p) !in shards ==> ledger.Held(client, p) == 0
      modifies ledger.spill
      ensures ledger.Valid() && forall cl, p :: ledger.Held(cl, p) == old(ledger.Held(cl, p))
      ensures Emits(client, totals, outs)
    {
      hide Emitting, FullTotals, Thresholded, Total, NumberAt, Increasing, PathLedger.Valid, PathLedger.Held;
      outs := [];
      var i := 0;
      EmitsNothing(client, totals, shards);
      while i < |shards|
        invariant 0 <= i <= |shards| && ledger.Valid() && Emitting(client, totals, shards, i, outs)
        invariant forall cl, p :: ledger.Held(cl, p) == old(ledger.Held(cl, p))
      {
        var m := Qualifying(client, shards[i], totals);
        EmitsShard(client, totals, shards, i, outs, m);
        outs := outs + [m];
        i := i + 1;
      }
      EmitsAll(client, totals, shards, outs);
    }

    lemma EmitsAll(client: ClientId, totals: Path -> nat, shards: seq<int>, outs: seq<PathCounts>)
      requires Emitting(client, totals, shards, |shards|, outs)
      ensures Emits(client, totals, outs)
    {
      hide Total, FullTotals;
    }

    method Qualifying(client: ClientId, shard: int, ghost totals: Path -> nat) returns (m: PathCounts)
      requires ledger.Valid() && client !in ledger.paths && forall p :: ledger.Held(client, p) == totals(p)
      modifies ledger.spill
      ensures ledger.Valid() && forall cl, p :: ledger.Held(cl, p) == old(ledger.Held(cl, p))
      ensures m.client == client && FullTotals(totals, m)
      ensures forall p ::
                NumberAt(m.counts, p) == if ledger.Shard(client, p) == shard then Thresholded(totals(p)) else 0
    {
      hide Total, FullTotals, PathLedger.Valid, PathLedger.Held;
      var sums := ledger.SumShard(client, shard);
      m := PathCounts(client, map p | p in sums && sums[p] >= MIN_PATH_COUNT :: sums[p]);
      assert forall p :: NumberAt(m.counts, p) == Thresholded(NumberAt(sums, p));
      assert FullTotals(totals, m) by { TotalsFromSums(totals, sums, m); }
    }

    lemma TotalsFromSums(totals: Path -> nat, sums: PathDict, m: PathCounts)
      requires forall p :: p in m.counts ==> p in sums && m.counts[p] == sums[p] >= MIN_PATH_COUNT
      requires forall p :: p in sums ==> sums[p] == totals(p)
      ensures FullTotals(totals, m)
    {}

    method Discard(client: ClientId)
      requires Valid()
      modifies this, ledger, ledger.spill
      ensures Valid() && history == old(history)[client := []]
    {
      ledger.Discard(client);
      history := history[client := []];
      forall cl, p ensures ledger.Held(cl, p) == Total(Hist(cl), p) {
        assert Hist(cl) == if cl == client then [] else old(Hist(cl));
        assert old(ledger.Held(cl, p)) == Total(old(Hist(cl)), p);
      }
    }

    method SnapshotState() returns (committed: map<Key, nat>)
      requires Valid()
      modifies ledger, ledger.spill
      ensures Valid() && ledger.paths == map[] && committed == OpenLengths(ledger.spill.files)
    {
      committed := ledger.SnapshotState();
    }
  }
}

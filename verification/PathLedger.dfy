/** The counting dictionary shared by the two UC4 path aggregates: per client, a dictionary of
    path counts in memory and partial counts spilled to files sharded by a hash of the path. */
module PathLedger {
  import opened Common
  import opened Spill
  import opened Uc4Graph

  const SHARDING_FILES := 500

  /** One spilled partial count. */
  datatype Line = Line(path: Path, count: Count)

  function DictAt(paths: map<ClientId, PathDict>, client: ClientId): PathDict {
    if client in paths then paths[client] else map[]
  }

  ghost function LineCount(p: Path): Line -> nat {
    (line: Line) => if line.path == p then line.count else 0
  }

  /** Sum of the partial counts of p over a file. */
  ghost function Spilled(lines: seq<Line>, p: Path): nat {
    SumOf(LineCount(p), lines)
  }

  lemma SpilledConcat(a: seq<Line>, b: seq<Line>, p: Path)
    ensures Spilled(a + b, p) == Spilled(a, p) + Spilled(b, p)
  {
    SumOfConcat(LineCount(p), a, b);
  }

  lemma SpilledSnoc(a: seq<Line>, line: Line, p: Path)
    ensures Spilled(a + [line], p) == Spilled(a, p) + (if line.path == p then line.count else 0)
  {
    SpilledConcat(a, [line], p);
    SumOfOne(LineCount(p), line);
  }

  lemma SpilledPrefix(a: seq<Line>, b: seq<Line>, p: Path)
    requires a <= b
    ensures Spilled(a, p) <= Spilled(b, p)
  {
    SpilledConcat(a, b[|a|..], p);
    assert b == a + b[|a|..];
  }

  /** A line always counts. */
  lemma SpilledSome(lines: seq<Line>, i: nat)
    requires i < |lines|
    ensures Spilled(lines, lines[i].path) > 0
  {
    SumOfMember(LineCount(lines[i].path), lines, lines[i]);
  }

  lemma SpilledAbsent(lines: seq<Line>, p: Path)
    requires forall line :: line in lines ==> line.path != p
    ensures Spilled(lines, p) == 0
  {
    SumOfZero(LineCount(p), lines);
  }

  /** `by_shard[shard].append(line)`. */
  function AddLine(byShard: map<int, seq<Line>>, shard: int, line: Line): map<int, seq<Line>> {
    byShard[shard := SeqAt(byShard, shard) + [line]]
  }

  lemma AddLineSpilled(byShard: map<int, seq<Line>>, shard: int, line: Line, s: int, p: Path)
    requires p == line.path ==> s == shard
    ensures Spilled(SeqAt(AddLine(byShard, shard, line), s), p) ==
            Spilled(SeqAt(byShard, s), p) + (if p == line.path then line.count else 0)
  {
    SpilledSnoc(SeqAt(byShard, shard), line, p);
  }

  class PathLedger {
    var paths: map<ClientId, PathDict>
    const spill: MultiShardSpill<Line>
    const shardHash: (ClientId, Path) -> int

    function Shard(client: ClientId, p: Path): (s: int)
      ensures 0 <= s < SHARDING_FILES && (shardHash(client, p) - s) % SHARDING_FILES == 0
    {
      shardHash(client, p) % SHARDING_FILES
    }

    /** Count of p held for a client, in memory and on disk together. */
    ghost function Held(client: ClientId, p: Path): nat
      reads this, spill
    {
      NumberAt(DictAt(paths, client), p) + OnDisk(spill.files, client, p)
    }

    /** Count of p written to the files. */
    ghost function OnDisk(files: map<Key, FileState<Line>>, client: ClientId, p: Path): nat {
      Spilled(FileAt(files, Key(client, Shard(client, p))).Content(), p)
    }

    /** Memory has a path of this shard. */
    ghost predicate InMemory(paths: map<ClientId, PathDict>, k: Key) {
      HasPath(k.client, DictAt(paths, k.client).Keys, k.shard)
    }

    /** Every line of a shard's file belongs to that shard. */
    ghost predicate Filed(client: ClientId, shard: int, lines: seq<Line>) {
      forall line :: line in lines ==> Shard(client, line.path) == shard
    }

    ghost predicate Valid()
      reads this, spill
    {
      forall client, s :: Filed(client, s, spill.File(Key(client, s)))
    }

    constructor (spill: MultiShardSpill<Line>, shardHash: (ClientId, Path) -> int)
      requires forall k :: spill.File(k) == []
      ensures Valid() && paths == map[] && this.spill == spill && this.shardHash == shardHash
      ensures forall cl, p :: Held(cl, p) == 0
    {
      this.spill, this.shardHash := spill, shardHash;
      paths := map[];
    }

    /** Installs a client's dictionary; what it holds changes by what the dictionary does. */
    method Store(client: ClientId, dict: PathDict)
      requires Valid()
      modifies this
      ensures Valid() && paths == old(paths)[client := dict]
      ensures forall cl, p ::
        Held(cl, p)
          == old(Held(cl, p))
          + (if cl == client then NumberAt(dict, p) - old(NumberAt(DictAt(paths, client), p)) else 0)
    {
      paths := paths[client := dict];
      assert forall cl :: DictAt(paths, cl) == if cl == client then dict else DictAt(old(paths), cl);
    }

    /** Moves a client's dictionary to the spill files. */
    method SpillToDisk(client: ClientId)
      requires Valid() && client in paths
      modifies this, spill
      ensures Valid() && paths == old(paths) - {client}
      ensures forall cl, p :: Held(cl, p) == old(Held(cl, p))
      ensures Grown(old(spill.files), spill.files)
      ensures forall k :: FileAt(spill.files, k).Open? <==>
                old(FileAt(spill.files, k)).Open? || (k.client == client && InMemory(old(paths), k))
      ensures spill.Eager() && old(AllOnDisk(spill.files)) ==> AllOnDisk(spill.files)
    {
      hide Grown, AllOnDisk, AppendedEach, FileAt, FileState.Content, MultiShardSpill.Eager;
      var dict := paths[client];
      assert dict == DictAt(paths, client);
      var byShard := BucketByShard(client, dict);
      spill.AppendShards(client, byShard);
      AppendedEachGrows(old(spill.files), ToShards(client, byShard), spill.files);
      paths := paths - {client};
      assert forall cl :: DictAt(paths, cl) == if cl == client then map[] else DictAt(old(paths), cl);
      forall cl, p ensures Held(cl, p) == old(Held(cl, p)) {
        var k := Key(cl, Shard(cl, p));
        SpilledConcat(old(spill.File(k)), SeqAt(byShard, k.shard), p);
        assert cl != client ==> spill.File(k) == old(spill.File(k));
      }
      forall cl, s ensures Filed(cl, s, spill.File(Key(cl, s))) {
        assert Filed(cl, s, old(spill.File(Key(cl, s))));
        assert cl != client ==> spill.File(Key(cl, s)) == old(spill.File(Key(cl, s)));
      }
    }

    method BucketByShard(client: ClientId, dict: PathDict) returns (byShard: map<int, seq<Line>>)
      ensures forall p :: Spilled(SeqAt(byShard, Shard(client, p)), p) == NumberAt(dict, p)
      ensures forall s :: Filed(client, s, SeqAt(byShard, s))
      ensures forall s :: SeqAt(byShard, s) != [] <==> HasPath(client, dict.Keys, s)
    {
      hide Bucketed, Spilled, Filed, HasPath;
      byShard := map[];
      var todo := dict.Keys;
      BucketNothing(client, dict);
      while todo != {}
        invariant todo <= dict.Keys
        invariant Bucketed(client, dict, todo, byShard)
        decreases |todo|
      {
        var q := Choose(todo);
        BucketStep(client, dict, todo, byShard, q);
        byShard := AddLine(byShard, Shard(client, q), Line(q, dict[q]));
        todo := todo - {q};
      }
      BucketedAll(client, dict, byShard);
    }

    lemma BucketNothing(client: ClientId, dict: PathDict)
      ensures Bucketed(client, dict, dict.Keys, map[])
    {}

    lemma BucketedAll(client: ClientId, dict: PathDict, byShard: map<int, seq<Line>>)
      requires Bucketed(client, dict, {}, byShard)
      ensures forall p :: Spilled(SeqAt(byShard, Shard(client, p)), p) == NumberAt(dict, p)
      ensures forall s :: Filed(client, s, SeqAt(byShard, s))
      ensures forall s :: SeqAt(byShard, s) != [] <==> HasPath(client, dict.Keys, s)
    {
      hide Spilled, Filed, HasPath;
      assert dict.Keys - {} == dict.Keys;
    }

    /** Every entry of the dictionary outside `todo` is in the bucket of its shard, once. */
    ghost predicate Bucketed(client: ClientId, dict: PathDict, todo: set<Path>, byShard: map<int, seq<Line>>) {
      && (forall p :: Spilled(SeqAt(byShard, Shard(client, p)), p) == if p in todo then 0 else NumberAt(dict, p))
      && (forall s :: Filed(client, s, SeqAt(byShard, s)))
      && (forall s :: SeqAt(byShard, s) != [] <==> HasPath(client, dict.Keys - todo, s))
    }

    ghost predicate HasPath(client: ClientId, ps: set<Path>, shard: int) {
      exists p :: p in ps && Shard(client, p) == shard
    }

    lemma BucketStep(client: ClientId, dict: PathDict, todo: set<Path>, byShard: map<int, seq<Line>>, q: Path)
      requires Bucketed(client, dict, todo, byShard) && q in todo && todo <= dict.Keys
      ensures Bucketed(client, dict, todo - {q}, AddLine(byShard, Shard(client, q), Line(q, dict[q])))
    {
      hide HasPath, Spilled, Filed;
      var after := AddLine(byShard, Shard(client, q), Line(q, dict[q]));
      forall p ensures Spilled(SeqAt(after, Shard(client, p)), p) == if p in todo - {q} then 0 else NumberAt(dict, p) {
        AddLineSpilled(byShard, Shard(client, q), Line(q, dict[q]), Shard(client, p), p);
      }
      forall s ensures Filed(client, s, SeqAt(after, s)) {
        FiledMore(client, s, SeqAt(byShard, s), Line(q, dict[q]));
      }
      forall s ensures SeqAt(after, s) != [] <==> HasPath(client, dict.Keys - (todo - {q}), s) {
        OnePathMore(client, dict.Keys, todo, q, s);
      }
    }

    lemma FiledMore(client: ClientId, s: int, lines: seq<Line>, line: Line)
      requires Filed(client, s, lines)
      ensures s == Shard(client, line.path) ==> Filed(client, s, lines + [line])
    {}

    lemma OnePathMore(client: ClientId, all: set<Path>, todo: set<Path>, q: Path, s: int)
      requires q in all
      ensures HasPath(client, all - (todo - {q}), s) <==> HasPath(client, all - todo, s) || s == Shard(client, q)
    {
      assert all - (todo - {q}) == all - todo + {q};
    }

    /** Reads one shard file back and sums its partial counts: exactly the paths of that shard,
        each with everything held for it. */
    method SumShard(client: ClientId, shard: int) returns (sums: PathDict)
      requires Valid() && client !in paths
      modifies spill
      ensures Valid()
      ensures forall cl, p :: Held(cl, p) == old(Held(cl, p))
      ensures forall p :: NumberAt(sums, p) == if Shard(client, p) == shard then Held(client, p) else 0
      ensures forall p :: p in sums ==> sums[p] == Held(client, p)
    {
      assert Filed(client, shard, spill.File(Key(client, shard)));
      var lines := spill.ReadShard(client, shard);
      sums := SumLines(lines);
      forall p ensures NumberAt(sums, p) == if Shard(client, p) == shard then Held(client, p) else 0 {
        if Shard(client, p) != shard {
          SpilledAbsent(lines, p);
        }
      }
      forall p | p in sums ensures sums[p] == Held(client, p) {
        assert sums[p] == NumberAt(sums, p);
      }
    }

    method SumLines(lines: seq<Line>) returns (sums: PathDict)
      ensures forall p :: NumberAt(sums, p) == Spilled(lines, p)
      ensures forall p :: p in sums ==> exists line :: line in lines && line.path == p
    {
      sums := map[];
      var i := 0;
      while i < |lines|
        invariant 0 <= i <= |lines|
        invariant forall p :: NumberAt(sums, p) == Spilled(lines[..i], p)
        invariant forall p :: p in sums ==> exists line :: line in lines && line.path == p
      {
        var line := lines[i];
        assert lines[..i + 1] == lines[..i] + [line];
        forall p
          ensures Spilled(lines[..i + 1], p) == Spilled(lines[..i], p) + (if line.path == p then line.count else 0)
        {
          SpilledSnoc(lines[..i], line, p);
        }
        ghost var before := sums;
        sums := sums[line.path := NumberAt(sums, line.path) + line.count];
        assert forall p :: NumberAt(sums, p) == NumberAt(before, p) + (if line.path == p then line.count else 0);
        i := i + 1;
      }
      assert lines[..i] == lines;
    }

    /** The shards to read back; nothing is held for a path of any other shard. */
    method ShardsToSum(client: ClientId) returns (shards: seq<int>)
      requires Valid()
      modifies this, spill
      ensures Valid() && client !in paths && Increasing(shards)
      ensures forall cl, p :: Held(cl, p) == old(Held(cl, p))
      ensures forall p :: Shard(client, p) !in shards ==> Held(client, p) == 0
    {
      if client in paths {
        SpillToDisk(client);
      }
      shards := spill.ShardsOf(client);
    }

    method Discard(client: ClientId)
      requires Valid()
      modifies this, spill
      ensures Valid() && client !in paths
      ensures forall cl, p :: Held(cl, p) == if cl == client then 0 else old(Held(cl, p))
    {
      spill.Clear(client);
      paths := paths - {client};
      assert forall cl :: DictAt(paths, cl) == if cl == client then map[] else DictAt(old(paths), cl);
      forall cl, p ensures Held(cl, p) == if cl == client then 0 else old(Held(cl, p)) {
        assert cl != client ==> spill.File(Key(cl, Shard(cl, p))) == old(spill.File(Key(cl, Shard(cl, p))));
      }
      forall cl, s ensures Filed(cl, s, spill.File(Key(cl, s))) {
        assert Filed(cl, s, old(spill.File(Key(cl, s))));
      }
    }

    method SpillAll()
      requires Valid()
      modifies this, spill
      ensures Valid() && paths == map[]
      ensures forall cl, p :: Held(cl, p) == old(Held(cl, p))
      ensures forall k :: FileAt(spill.files, k).Open? <==> old(FileAt(spill.files, k)).Open? || InMemory(old(paths), k)
    {
      hide Held, Valid, Grown, FileAt, AllOnDisk;
      var clients := paths.Keys;
      ghost var paths0 := paths;
      while clients != {}
        invariant clients == paths.Keys && Valid()
        invariant forall cl :: cl in paths ==> cl in paths0 && paths[cl] == paths0[cl]
        invariant forall cl, p :: Held(cl, p) == old(Held(cl, p))
        invariant forall k :: FileAt(spill.files, k).Open? <==>
                    old(FileAt(spill.files, k)).Open? || (k.client !in paths && InMemory(paths0, k))
        decreases |clients|
      {
        var client := Choose(clients);
        assert forall k: Key :: k.client == client ==> (InMemory(paths, k) <==> InMemory(paths0, k));
        SpillToDisk(client);
        clients := clients - {client};
      }
    }

    /** A checkpoint spills every dictionary first, so the snapshot only records file lengths. */
    method SnapshotState() returns (committed: map<Key, nat>)
      requires Valid()
      modifies this, spill
      ensures Valid() && paths == map[] && committed == OpenLengths(spill.files) && AllOnDisk(spill.files)
      ensures forall cl, p :: Held(cl, p) == old(Held(cl, p)) == OnDisk(spill.files, cl, p)
      ensures forall k :: FileAt(spill.files, k).Open? <==> old(FileAt(spill.files, k)).Open? || InMemory(old(paths), k)
    {
      SpillAll();
      label L0:
      committed := spill.Snapshot();
      forall cl, p ensures Held(cl, p) == old(Held(cl, p)) {
        assert spill.File(Key(cl, Shard(cl, p))) == old@L0(spill.File(Key(cl, Shard(cl, p))));
      }
    }

    /** What restore leaves of a path's lines written after the snapshot. */
    ghost function Kept(before: map<Key, FileState<Line>>, atCrash: map<Key, FileState<Line>>, client: ClientId,
                        p: Path): nat
    {
      var k := Key(client, Shard(client, p));
      Spilled(KeptLines(FileAt(before, k), FileAt(atCrash, k)), p)
    }

    /** The process dies some time after a snapshot and is restored from it: everything is held that was
        held at the snapshot, and besides it whatever the lines kept in uncovered files count, which is
        part of what was held at the crash. */
    method CrashAndRestore(committed: map<Key, nat>, ghost before: map<Key, FileState<Line>>)
      requires Valid() && committed == OpenLengths(before) && Grown(before, spill.files) && AllOnDisk(before)
      modifies this, spill
      ensures Valid() && paths == map[]
      ensures forall cl, p :: Held(cl, p) == OnDisk(before, cl, p) + Kept(before, old(spill.files), cl, p)
      ensures forall cl, p :: Held(cl, p) <= old(Held(cl, p))
      ensures (forall cl, p :: Kept(before, old(spill.files), cl, p) == 0) <==> Covered(before, old(spill.files))
    {
      hide Grown, FileAt, OpenLengths, KeptLines, Spilled, FileState.Content, FileState.Flushed, Covered;
      KeptNothing(before, spill.files);
      ghost var atCrash := spill.files;
      spill.CrashAndRestore(committed, before);
      paths := map[];
      forall cl, p
        ensures Held(cl, p) == OnDisk(before, cl, p) + Kept(before, atCrash, cl, p)
        ensures Held(cl, p) <= old(Held(cl, p))
      {
        var k := Key(cl, Shard(cl, p));
        SpilledConcat(FileAt(before, k).Content(), KeptLines(FileAt(before, k), FileAt(atCrash, k)), p);
        SpilledPrefix(spill.File(k), old(spill.File(k)), p);
      }
      forall cl, s ensures Filed(cl, s, spill.File(Key(cl, s))) {
        assert Filed(cl, s, old(spill.File(Key(cl, s))));
        assert spill.File(Key(cl, s)) <= old(spill.File(Key(cl, s)));
      }
    }

    /** An uncovered file keeps all its lines that were on the disk. */
    lemma KeptOnDisk(before: map<Key, FileState<Line>>, atCrash: map<Key, FileState<Line>>, client: ClientId, p: Path)
      requires Grown(before, atCrash) && AllOnDisk(before) && AllOnDisk(atCrash)
      requires FileAt(before, Key(client, Shard(client, p))).Closed?
      ensures Kept(before, atCrash, client, p) + OnDisk(before, client, p) == OnDisk(atCrash, client, p)
    {
      var k := Key(client, Shard(client, p));
      var f, g := FileAt(before, k), FileAt(atCrash, k);
      assert f == f.Flushed() && g == g.Flushed() && GrownFile(f, g);
      assert g.Content() == f.Content() + KeptLines(f, g);
      SpilledConcat(f.Content(), KeptLines(f, g), p);
    }

    /** No line of a file is filed wrongly, so a kept line counts for the path that it names. */
    lemma KeptNothing(before: map<Key, FileState<Line>>, atCrash: map<Key, FileState<Line>>)
      requires Grown(before, atCrash)
      requires forall client, s :: Filed(client, s, FileAt(atCrash, Key(client, s)).Content())
      ensures (forall cl, p :: Kept(before, atCrash, cl, p) == 0) <==> Covered(before, atCrash)
    {
      hide Covered, Spilled, FileAt, Filed;
      CoveredKeepsNothing(before, atCrash);
      if Covered(before, atCrash) {
        forall cl, p ensures Kept(before, atCrash, cl, p) == 0 {
          SpilledAbsent([], p);
        }
      } else {
        var k :| KeptLines(FileAt(before, k), FileAt(atCrash, k)) != [];
        assert Filed(k.client, k.shard, FileAt(atCrash, Key(k.client, k.shard)).Content());
        KeptCounts(before, atCrash, k);
      }
    }

    lemma KeptCounts(before: map<Key, FileState<Line>>, atCrash: map<Key, FileState<Line>>, k: Key)
      requires Grown(before, atCrash) && Filed(k.client, k.shard, FileAt(atCrash, k).Content())
      requires KeptLines(FileAt(before, k), FileAt(atCrash, k)) != []
      ensures exists p :: Kept(before, atCrash, k.client, p) > 0
    {
      hide Spilled, FileAt;
      var f, g := FileAt(before, k), FileAt(atCrash, k);
      assert GrownFile(f, g) by { hide GrownFile; }
      var line := KeptLines(f, g)[0];
      assert line == g.disk[|f.disk|] && line in g.Content();
      SpilledSome(KeptLines(f, g), 0);
      assert Kept(before, atCrash, k.client, line.path) > 0;
    }

    /** Snapshot, death of the process and restore give back everything held, with nothing in memory. */
    method SnapshotAndRestart()
      requires Valid()
      modifies this, spill
      ensures Valid() && paths == map[]
      ensures forall cl, p :: Held(cl, p) == old(Held(cl, p))
    {
      var committed := SnapshotState();
      label L0:
      spill.Restart(committed);
      paths := map[];
      forall cl, p ensures Held(cl, p) == old(Held(cl, p)) {
        assert spill.File(Key(cl, Shard(cl, p))) == old@L0(spill.File(Key(cl, Shard(cl, p))));
      }
    }
  }
}

/** Append-only spill files keyed by (client, shard), with snapshot and restore.

    A file is the sequence of lines written to it. Its `disk` part is held by the operating
    system and survives a process crash; an open handle also keeps the lines still in the
    process's write buffer. Lengths are counted in lines: every append writes one whole line
    and every committed length is taken after a flush. */
module Spill {
  import opened Common

  datatype Key = Key(client: int, shard: int)

  datatype FileState<L> = Closed(disk: seq<L>) | Open(disk: seq<L>, buffer: seq<L>) {
    /** What a reader that flushes first would see. */
    function Content(): seq<L> {
      if Closed? then disk else disk + buffer
    }
    function Flushed(): FileState<L> {
      if Closed? then this else Open(disk + buffer, [])
    }
    /** Closed and, when a length was recorded for it, cut back to that length. */
    function Truncated(recorded: bool, length: nat): FileState<L>
      requires recorded ==> length <= |disk|
    {
      Closed(if recorded then disk[..length] else disk)
    }
    /** Cut back to the recorded length, if there is one, and opened for appending. */
    function Reopened(recorded: bool, length: nat): FileState<L>
      requires recorded ==> length <= |disk|
    {
      if recorded then Open(disk[..length], []) else this
    }
    /** Writes a line through an append handle, opening one if there is none. */
    function Write(line: L, full: bool): FileState<L> {
      var appended := Open(disk, (if Open? then buffer else []) + [line]);
      if full then appended.Flushed() else appended
    }
  }

  function FileAt<K, L>(files: map<K, FileState<L>>, k: K): FileState<L> {
    if k in files then files[k] else Closed([])
  }

  /** f became g by appending lines, any part of which may have been flushed on the way. */
  ghost predicate Appended<L(!new)>(f: FileState<L>, lines: seq<L>, g: FileState<L>) {
    && g.Content() == f.Content() + lines
    && f.disk <= g.disk
    && (if lines == [] then g == f else g.Open?)
  }

  lemma WriteAppends<L(!new)>(f: FileState<L>, line: L, full: bool)
    ensures Appended(f, [line], f.Write(line, full))
  {
    if f.Open? {
      assert f.disk + f.buffer + [line] == f.disk + (f.buffer + [line]);
    } else {
      assert f.disk + ([] + [line]) == f.disk + [line];
    }
  }

  lemma AppendedTwice<L(!new)>(f: FileState<L>, a: seq<L>, g: FileState<L>, b: seq<L>, h: FileState<L>)
    requires Appended(f, a, g) && Appended(g, b, h)
    ensures Appended(f, a + b, h)
  {
    assert f.Content() + (a + b) == f.Content() + a + b;
  }

  /** g came from f by appends. */
  ghost predicate GrownFile<L(!new)>(f: FileState<L>, g: FileState<L>) {
    g == f || (g.Open? && f.disk <= g.disk && f.Content() <= g.Content())
  }

  ghost predicate Grown<K(!new), L(!new)>(before: map<K, FileState<L>>, after: map<K, FileState<L>>) {
    forall k :: GrownFile(FileAt(before, k), FileAt(after, k))
  }

  lemma GrownNothing<K(!new), L(!new)>(files: map<K, FileState<L>>)
    ensures Grown(files, files)
  {}

  lemma GrownTwice<K(!new), L(!new)>(a: map<K, FileState<L>>, b: map<K, FileState<L>>, c: map<K, FileState<L>>)
    requires Grown(a, b) && Grown(b, c)
    ensures Grown(a, c)
  {
    hide FileAt;
    forall k ensures GrownFile(FileAt(a, k), FileAt(c, k)) {
      assert GrownFile(FileAt(a, k), FileAt(b, k)) && GrownFile(FileAt(b, k), FileAt(c, k));
    }
  }

  /** The lines of a log of appends that went to one file. */
  ghost function LinesFor<K, L>(log: seq<(K, L)>, k: K): seq<L> {
    if log == [] then []
    else LinesFor(log[..|log| - 1], k) + (if log[|log| - 1].0 == k then [log[|log| - 1].1] else [])
  }

  /** Everything written to the files is on the disk. */
  ghost predicate AllOnDisk<K(!new), L(!new)>(files: map<K, FileState<L>>) {
    forall k :: FileAt(files, k) == FileAt(files, k).Flushed()
  }

  /** Each file was appended its part of the lines. */
  ghost predicate AppendedEach<K(!new), L(!new)>(before: map<K, FileState<L>>, lines: K -> seq<L>,
                                                 after: map<K, FileState<L>>)
  {
    forall k :: Appended(FileAt(before, k), lines(k), FileAt(after, k))
  }

  lemma AppendedEachTwice<K(!new), L(!new)>(a: map<K, FileState<L>>, l: K -> seq<L>, b: map<K, FileState<L>>,
                                            m: K -> seq<L>,
                                            c: map<K, FileState<L>>, n: K -> seq<L>)
    requires AppendedEach(a, l, b) && AppendedEach(b, m, c) && forall k :: n(k) == l(k) + m(k)
    ensures AppendedEach(a, n, c)
  {
    hide FileAt, Appended;
    forall k ensures Appended(FileAt(a, k), n(k), FileAt(c, k)) {
      AppendedTwice(FileAt(a, k), l(k), FileAt(b, k), m(k), FileAt(c, k));
    }
  }

  /** What an append of some lines to each file does to the contents, the handles and the disk. */
  lemma AppendedEachGrows<K(!new), L(!new)>(before: map<K, FileState<L>>, lines: K -> seq<L>,
                                            after: map<K, FileState<L>>)
    requires AppendedEach(before, lines, after)
    ensures Grown(before, after)
    ensures forall k :: FileAt(after, k).Content() == FileAt(before, k).Content() + lines(k)
    ensures forall k :: FileAt(after, k).Open? <==> FileAt(before, k).Open? || lines(k) != []
  {
    hide FileAt;
    forall k
      ensures GrownFile(FileAt(before, k), FileAt(after, k))
      ensures FileAt(after, k).Content() == FileAt(before, k).Content() + lines(k)
      ensures FileAt(after, k).Open? <==> FileAt(before, k).Open? || lines(k) != []
    {
      assert Appended(FileAt(before, k), lines(k), FileAt(after, k));
    }
  }

  ghost function OnlyTo<K(!new), L>(key: K, lines: seq<L>): K -> seq<L> {
    k => if k == key then lines else []
  }

  ghost function ToShards<L>(client: int, byShard: map<int, seq<L>>): Key -> seq<L> {
    (k: Key) => if k.client == client then SeqAt(byShard, k.shard) else []
  }

  lemma AppendedNothing<K(!new), L(!new)>(files: map<K, FileState<L>>, lines: K -> seq<L>)
    requires forall k :: lines(k) == []
    ensures AppendedEach(files, lines, files)
  {}

  lemma AppendedOne<K(!new), L(!new)>(files: map<K, FileState<L>>, key: K, line: L, full: bool)
    ensures AppendedEach(files, OnlyTo(key, [line]), files[key := FileAt(files, key).Write(line, full)])
    ensures full && AllOnDisk(files) ==> AllOnDisk(files[key := FileAt(files, key).Write(line, full)])
  {
    var f := FileAt(files, key);
    WriteAppends(f, line, full);
    hide FileState.Content, FileState.Write;
    var after := files[key := f.Write(line, full)];
    forall k ensures FileAt(after, k) == if k == key then f.Write(line, full) else FileAt(files, k) {}
    hide FileAt;
    forall k ensures Appended(FileAt(files, k), OnlyTo(key, [line])(k), FileAt(after, k)) {
      AppendedSame(FileAt(files, k));
    }
    if full {
      WriteFlushes(f, line);
    }
  }

  lemma AppendedSame<L(!new)>(f: FileState<L>)
    ensures Appended(f, [], f)
  {}

  lemma WriteFlushes<L(!new)>(f: FileState<L>, line: L)
    ensures f.Write(line, true) == f.Write(line, true).Flushed()
  {}

  /** Every file was covered by the snapshot or has on disk at the crash what it had then. */
  ghost predicate Covered<K(!new), L(!new)>(before: map<K, FileState<L>>, atCrash: map<K, FileState<L>>) {
    forall k :: FileAt(before, k).Open? || FileAt(atCrash, k).disk == FileAt(before, k).disk
  }

  /** That is, it keeps no line. */
  lemma CoveredKeepsNothing<K(!new), L(!new)>(before: map<K, FileState<L>>, atCrash: map<K, FileState<L>>)
    requires Grown(before, atCrash)
    ensures Covered(before, atCrash) <==> forall k :: KeptLines(FileAt(before, k), FileAt(atCrash, k)) == []
  {
    hide FileAt;
    forall k
      ensures KeptLines(FileAt(before, k), FileAt(atCrash, k)) == [] <==>
              FileAt(before, k).Open? || FileAt(atCrash, k).disk == FileAt(before, k).disk
    {
      assert GrownFile(FileAt(before, k), FileAt(atCrash, k));
    }
  }

  /** Flushes every open handle; what a snapshot of either store does. */
  method FlushAll<L(!new)>(files: map<Key, FileState<L>>)
    returns (flushed: map<Key, FileState<L>>, committed: map<Key, nat>)
    ensures forall k :: FileAt(flushed, k) == FileAt(files, k).Flushed()
    ensures committed == OpenLengths(flushed)
  {
    flushed, committed := files, map[];
    var todo := files.Keys;
    while todo != {}
      invariant todo <= files.Keys && flushed.Keys == files.Keys
      invariant forall k ::
                  FileAt(flushed, k) == if k in todo then FileAt(files, k) else FileAt(files, k).Flushed()
      invariant forall k :: k in committed <==> k in flushed && flushed[k].Open? && k !in todo
      invariant forall k :: k in committed ==> committed[k] == |flushed[k].Content()|
      decreases |todo|
    {
      var k := Choose(todo);
      if files[k].Open? {
        flushed := flushed[k := files[k].Flushed()];
        committed := committed[k := |flushed[k].disk|];
      }
      todo := todo - {k};
    }
  }

  class MultiShardSpill<L(!new)> {
    var files: map<Key, FileState<L>>
    /** Whether the write buffer of a file in this state is written out at once. */
    const fills: (Key, FileState<L>) -> bool

    ghost function File(k: Key): seq<L>
      reads this
    {
      FileAt(files, k).Content()
    }

    constructor (fills: (Key, FileState<L>) -> bool)
      ensures files == map[] && this.fills == fills
      ensures forall k :: File(k) == []
    {
      files := map[];
      this.fills := fills;
    }

    /** The buffer is always written out. */
    ghost predicate Eager() {
      forall k, f :: fills(k, f)
    }

    method Append(client: int, shard: int, line: L)
      modifies this
      ensures AppendedEach(old(files), OnlyTo(Key(client, shard), [line]), files)
      ensures Eager() && old(AllOnDisk(files)) ==> AllOnDisk(files)
    {
      hide FileState.Write, AllOnDisk, AppendedEach;
      var key := Key(client, shard);
      var f := FileAt(files, key);
      var full := fills(key, f.Write(line, false));
      AppendedOne(files, key, line, full);
      files := files[key := f.Write(line, full)];
    }

    /** Appends every group of lines to the shard it was bucketed under. */
    method AppendShards(client: int, byShard: map<int, seq<L>>)
      modifies this
      ensures AppendedEach(old(files), ToShards(client, byShard), files)
      ensures Eager() && old(AllOnDisk(files)) ==> AllOnDisk(files)
    {
      hide AppendedEach, AllOnDisk, ToShards, OnlyTo;
      var todo := byShard.Keys;
      AppendedNothing(files, ToShards(client, map[])) by { ToNoShards(client, byShard, todo); }
      ToNoShards(client, byShard, todo);
      while todo != {}
        invariant todo <= byShard.Keys && AppendedEach(old(files), ToShards(client, byShard - todo), files)
        invariant Eager() && old(AllOnDisk(files)) ==> AllOnDisk(files)
        decreases |todo|
      {
        var shard := Choose(todo);
        ghost var before := files;
        AppendLines(client, shard, byShard[shard]);
        ToOneShard(client, byShard, todo, shard);
        AppendedEachTwice(old(files), ToShards(client, byShard - todo), before,
                          OnlyTo(Key(client, shard), byShard[shard]), files,
                          ToShards(client, byShard - (todo - {shard})));
        todo := todo - {shard};
      }
      assert byShard - todo == byShard;
    }

    lemma ToNoShards(client: int, byShard: map<int, seq<L>>, todo: set<int>)
      requires todo == byShard.Keys
      ensures byShard - todo == map[]
      ensures forall k :: ToShards<L>(client, map[])(k) == []
    {}

    lemma ToOneShard(client: int, byShard: map<int, seq<L>>, todo: set<int>, shard: int)
      requires shard in todo && todo <= byShard.Keys
      ensures forall k :: ToShards(client, byShard - (todo - {shard}))(k)
                       == ToShards(client, byShard - todo)(k) + OnlyTo(Key(client, shard), byShard[shard])(k)
    {}

    method AppendLines(client: int, shard: int, lines: seq<L>)
      modifies this
      ensures AppendedEach(old(files), OnlyTo(Key(client, shard), lines), files)
      ensures Eager() && old(AllOnDisk(files)) ==> AllOnDisk(files)
    {
      hide AppendedEach, AllOnDisk;
      ghost var key := Key(client, shard);
      var i := 0;
      AppendedNothing(files, OnlyTo(key, lines[..0]));
      while i < |lines|
        invariant 0 <= i <= |lines| && AppendedEach(old(files), OnlyTo(key, lines[..i]), files)
        invariant Eager() && old(AllOnDisk(files)) ==> AllOnDisk(files)
      {
        ghost var before := files;
        Append(client, shard, lines[i]);
        assert lines[..i + 1] == lines[..i] + [lines[i]];
        AppendedEachTwice(old(files), OnlyTo(key, lines[..i]), before, OnlyTo(key, [lines[i]]), files,
                          OnlyTo(key, lines[..i + 1]));
        i := i + 1;
      }
      assert lines[..i] == lines;
    }

    /** Every shard of a client that has a file, in increasing order. */
    method ShardsOf(client: int) returns (shards: seq<int>)
      ensures Increasing(shards)
      ensures forall s :: s !in shards ==> File(Key(client, s)) == []
      ensures forall s :: s in shards <==> Key(client, s) in files
    {
      var onDisk := set k | k in files && k.client == client :: k.shard;
      shards := Sorted(onDisk);
      forall s | s !in shards ensures File(Key(client, s)) == [] {
        assert Key(client, s) !in files;
      }
    }

    /** Closes the handle, which flushes it, and reads the file back. */
    method ReadShard(client: int, shard: int) returns (lines: seq<L>)
      modifies this
      ensures lines == old(File(Key(client, shard)))
      ensures forall k :: File(k) == old(File(k))
      ensures forall k :: FileAt(files, k) == if k == Key(client, shard) then Closed(lines) else old(FileAt(files, k))
    {
      var key := Key(client, shard);
      lines := FileAt(files, key).Content();
      if key in files {
        files := files[key := Closed(lines)];
      }
    }

    method Clear(client: int)
      modifies this
      ensures forall k :: File(k) == if k.client == client then [] else old(File(k))
      ensures forall k :: FileAt(files, k) == if k.client == client then Closed([]) else old(FileAt(files, k))
    {
      files := map k | k in files && k.client != client :: files[k];
    }

    /** Flushes every open handle and records its committed length. */
    method Snapshot() returns (committed: map<Key, nat>)
      modifies this
      ensures forall k :: FileAt(files, k) == old(FileAt(files, k)).Flushed()
      ensures forall k :: File(k) == old(File(k))
      ensures committed == OpenLengths(files)
    {
      files, committed := FlushAll(files);
    }

    /** Forgets every handle and cuts each recorded file back to its committed length. */
    method Restore(committed: map<Key, nat>)
      requires forall k :: k in committed ==> committed[k] <= |FileAt(files, k).disk|
      modifies this
      ensures forall k :: FileAt(files, k) == old(FileAt(files, k)).Truncated(k in committed, NumberAt(committed, k))
    {
      var todo := files.Keys;
      while todo != {}
        invariant todo <= files.Keys && files.Keys == old(files.Keys)
        invariant forall k :: k in todo ==> FileAt(files, k) == old(FileAt(files, k))
        invariant forall k :: k in files && k !in todo ==>
          FileAt(files, k) == old(FileAt(files, k)).Truncated(k in committed, NumberAt(committed, k))
        decreases |todo|
      {
        var k := Choose(todo);
        assert FileAt(files, k) == files[k];
        files := files[k := files[k].Truncated(k in committed, NumberAt(committed, k))];
        todo := todo - {k};
      }
    }

    /** The process dies: every handle is lost with the lines still in its buffer. */
    method Crash()
      modifies this
      ensures forall k :: FileAt(files, k) == Closed(old(FileAt(files, k)).disk)
    {
      files := map k | k in files :: Closed(files[k].disk);
    }

    /** The death of the process right after a snapshot, and a restore from it, lose no line. */
    method Restart(committed: map<Key, nat>)
      requires committed == OpenLengths(files) && AllOnDisk(files)
      modifies this
      ensures forall k :: File(k) == old(File(k))
    {
      assert forall k :: k in committed ==> committed[k] == |FileAt(files, k).disk|;
      Crash();
      Restore(committed);
      forall k ensures File(k) == old(File(k)) {
        var f := old(FileAt(files, k));
        assert f == f.Flushed() && f.disk == f.Content() == old(File(k));
        assert f.disk[..|f.disk|] == f.disk;
      }
    }

    /** The process dies some appends after a snapshot, and the store is restored from it. */
    method CrashAndRestore(committed: map<Key, nat>, ghost files0: map<Key, FileState<L>>)
      requires committed == OpenLengths(files0) && Grown(files0, files) && AllOnDisk(files0)
      modifies this
      ensures forall k :: File(k) == FileAt(files0, k).Content() + KeptLines(FileAt(files0, k), old(FileAt(files, k)))
      ensures forall k :: File(k) <= old(File(k))
    {
      hide FileAt, Grown, KeptLines, RestoredFile, OpenLengths, NumberAt;
      hide FileState.Content, FileState.Flushed, FileState.Truncated;
      ghost var atCrash := files;
      Crash();
      ghost var files2 := files;
      LengthsReached(files0, files0, atCrash, files2);
      Restore(committed);
      FilesCut(files0, files0, atCrash, files2, files);
      ContentsCut(files0, atCrash, files);
    }

    method AppendAll(log: seq<(Key, L)>)
      modifies this
      ensures forall k :: Appended(old(FileAt(files, k)), LinesFor(log, k), FileAt(files, k))
    {
      var i := 0;
      while i < |log|
        invariant 0 <= i <= |log|
        invariant forall k :: Appended(old(FileAt(files, k)), LinesFor(log[..i], k), FileAt(files, k))
      {
        ghost var before := files;
        Append(log[i].0.client, log[i].0.shard, log[i].1);
        assert log[..i + 1][..i] == log[..i];
        assert AppendedEach(before, OnlyTo(log[i].0, [log[i].1]), files);
        forall k ensures Appended(old(FileAt(files, k)), LinesFor(log[..i + 1], k), FileAt(files, k)) {
          var line := if k == Key(log[i].0.client, log[i].0.shard) then [log[i].1] else [];
          AppendedTwice(old(FileAt(files, k)), LinesFor(log[..i], k), FileAt(before, k), line, FileAt(files, k));
        }
        i := i + 1;
      }
      assert log[..i] == log;
    }

    /** One crash: a snapshot is taken, `lost` is appended after it, the process dies and is
        restored from the snapshot, and the redelivered messages append `replay`.

        Every file with an open handle at the snapshot, and every file that `lost` did not
        touch, ends exactly as in a run without the crash. Any other file was first opened
        after the snapshot; restore has no length for it, so it keeps exactly the lost lines
        that had reached the disk, and equals the crash-free file if and only if none had.

        The handles restore drops are opened again only by a later append, so only the files
        the replay touched are covered by the next snapshot: see CrashRounds. */
    method CrashAndReplay(lost: seq<(Key, L)>, replay: seq<(Key, L)>)
      returns (ghost kept: imap<Key, seq<L>>, ghost atCrash: map<Key, FileState<L>>)
      modifies this
      ensures forall k :: Appended(old(FileAt(files, k)).Flushed(), LinesFor(lost, k), FileAt(atCrash, k))
      ensures forall k :: k in kept && kept[k] <= LinesFor(lost, k)
      ensures forall k ::
                kept[k] == [] <==> old(FileAt(files, k)).Open? || FileAt(atCrash, k).disk == old(FileAt(files, k)).disk
      ensures forall k :: File(k) == old(File(k)) + kept[k] + LinesFor(replay, k)
      ensures forall k :: FileAt(files, k).Open? <==> LinesFor(replay, k) != []
    {
      hide FileAt, Grown, Appended, LinesFor, KeptLines, RestoredFile, OpenLengths, NumberAt;
      hide FileState.Content, FileState.Flushed, FileState.Truncated, FileState.Reopened;
      ghost var files0 := files;
      var committed := Snapshot();
      ghost var files1 := files;
      AppendAll(lost);
      atCrash := files;
      Crash();
      ghost var files2 := files;
      LogGrows(lost, files1, atCrash);
      LengthsReached(files0, files1, atCrash, files2);
      Restore(committed);
      ghost var files3 := files;
      FilesCut(files0, files1, atCrash, files2, files3);
      AppendAll(replay);
      kept := imap k | true :: KeptLines(FileAt(files0, k), FileAt(atCrash, k));
      FilesAfterCrash(lost, replay, files0, atCrash, files3, files);
    }

    /** Any number of crashes, each after a snapshot taken where the last replay ended. */
    method CrashRounds(rounds: seq<Round<L>>) returns (ghost kept: seq<imap<Key, seq<L>>>)
      modifies this
      ensures |kept| == |rounds|
      ensures forall k :: AfterRounds(old(FileAt(files, k)), rounds, kept, k, FileAt(files, k), false)
    {
      hide AfterRounds, AfterRound, FileAt, LinesFor, Appended;
      kept := [];
      ghost var files0 := files;
      NoRounds(files0, false);
      var i := 0;
      while i < |rounds|
        invariant 0 <= i <= |rounds| && |kept| == i
        invariant forall k :: AfterRounds(FileAt(files0, k), rounds[..i], kept, k, FileAt(files, k), false)
      {
        ghost var before := files;
        ghost var k, c := CrashAndReplay(rounds[i].lost, rounds[i].replay);
        OneRound(before, c, rounds[i], k, files, false);
        MoreRounds(files0, rounds[..i], kept, before, rounds[i], k, files, false);
        kept := kept + [k];
        assert rounds[..i + 1] == rounds[..i] + [rounds[i]];
        i := i + 1;
      }
      assert rounds[..i] == rounds;
    }
  }

  /** The same store with one file per client (shard 0), whose restore opens every recorded file again. */
  class PersistentSpill<L(!new)> {
    var files: map<Key, FileState<L>>
    /** Whether the write buffer of a file in this state is written out at once. */
    const fills: (Key, FileState<L>) -> bool

    ghost function File(k: Key): seq<L>
      reads this
    {
      FileAt(files, k).Content()
    }

    constructor (fills: (Key, FileState<L>) -> bool)
      ensures files == map[] && this.fills == fills
      ensures forall k :: File(k) == []
    {
      files := map[];
      this.fills := fills;
    }

    /** The buffer is always written out. */
    ghost predicate Eager() {
      forall k, f :: fills(k, f)
    }

    method Append(k: Key, line: L)
      modifies this
      ensures AppendedEach(old(files), OnlyTo(k, [line]), files)
      ensures Eager() && old(AllOnDisk(files)) ==> AllOnDisk(files)
    {
      hide FileState.Write, AllOnDisk, AppendedEach;
      var f := FileAt(files, k);
      var full := fills(k, f.Write(line, false));
      AppendedOne(files, k, line, full);
      files := files[k := f.Write(line, full)];
    }

    /** Flushes the handle and reads the file; the file stays. */
    method IterLines(k: Key) returns (lines: seq<L>)
      modifies this
      ensures lines == old(File(k))
      ensures forall j :: File(j) == old(File(j))
      ensures forall j :: FileAt(files, j) == if j == k then old(FileAt(files, j)).Flushed() else old(FileAt(files, j))
    {
      lines := FileAt(files, k).Content();
      if k in files {
        files := files[k := files[k].Flushed()];
      }
    }

    method Clear(k: Key)
      modifies this
      ensures forall j :: FileAt(files, j) == if j == k then Closed([]) else old(FileAt(files, j))
    {
      files := files - {k};
    }

    method Snapshot() returns (committed: map<Key, nat>)
      modifies this
      ensures forall k :: FileAt(files, k) == old(FileAt(files, k)).Flushed()
      ensures forall k :: File(k) == old(File(k))
      ensures committed == OpenLengths(files)
    {
      files, committed := FlushAll(files);
    }

    method Crash()
      modifies this
      ensures forall k :: FileAt(files, k) == Closed(old(FileAt(files, k)).disk)
    {
      files := map k | k in files :: Closed(files[k].disk);
    }

    /** Cuts every recorded file back to its committed length and opens it for appending. */
    method Restore(committed: map<Key, nat>)
      requires forall k :: k in committed ==> committed[k] <= |FileAt(files, k).disk|
      requires forall k :: FileAt(files, k).Closed?
      modifies this
      ensures forall k :: FileAt(files, k) == old(FileAt(files, k)).Reopened(k in committed, NumberAt(committed, k))
    {
      var todo := committed.Keys;
      while todo != {}
        invariant todo <= committed.Keys
        invariant forall k :: k in todo ==> FileAt(files, k) == old(FileAt(files, k))
        invariant forall k ::
          k !in todo ==> FileAt(files, k) == old(FileAt(files, k)).Reopened(k in committed, NumberAt(committed, k))
        decreases |todo|
      {
        var k := Choose(todo);
        files := files[k := FileAt(files, k).Reopened(true, committed[k])];
        todo := todo - {k};
      }
    }

    /** The death of the process right after a snapshot, and a restore from it, lose no line. */
    method Restart(committed: map<Key, nat>)
      requires committed == OpenLengths(files) && AllOnDisk(files)
      modifies this
      ensures forall k :: File(k) == old(File(k))
    {
      assert forall k :: k in committed ==> committed[k] == |FileAt(files, k).disk|;
      Crash();
      Restore(committed);
      forall k ensures File(k) == old(File(k)) {
        var f := old(FileAt(files, k));
        assert f == f.Flushed() && f.disk == f.Content() == old(File(k));
        assert f.disk[..|f.disk|] == f.disk;
      }
    }

    method AppendAll(log: seq<(Key, L)>)
      modifies this
      ensures forall k :: Appended(old(FileAt(files, k)), LinesFor(log, k), FileAt(files, k))
    {
      var i := 0;
      while i < |log|
        invariant 0 <= i <= |log|
        invariant forall k :: Appended(old(FileAt(files, k)), LinesFor(log[..i], k), FileAt(files, k))
      {
        ghost var before := files;
        Append(log[i].0, log[i].1);
        assert log[..i + 1][..i] == log[..i];
        assert AppendedEach(before, OnlyTo(log[i].0, [log[i].1]), files);
        forall k ensures Appended(old(FileAt(files, k)), LinesFor(log[..i + 1], k), FileAt(files, k)) {
          AppendedTwice(old(FileAt(files, k)), LinesFor(log[..i], k), FileAt(before, k),
                        if k == log[i].0 then [log[i].1] else [], FileAt(files, k));
        }
        i := i + 1;
      }
      assert log[..i] == log;
    }

    /** The process dies some appends after a snapshot, and the store is restored from it. */
    method CrashAndRestore(committed: map<Key, nat>, ghost files0: map<Key, FileState<L>>)
      requires committed == OpenLengths(files0) && Grown(files0, files) && AllOnDisk(files0)
      modifies this
      ensures forall k :: File(k) == FileAt(files0, k).Content() + KeptLines(FileAt(files0, k), old(FileAt(files, k)))
    {
      hide FileAt, Grown, KeptLines, RestoredFile, OpenLengths, NumberAt;
      hide FileState.Content, FileState.Flushed, FileState.Reopened;
      ghost var atCrash := files;
      Crash();
      ghost var files2 := files;
      LengthsReached(files0, files0, atCrash, files2);
      Restore(committed);
      FilesReopened(files0, files0, atCrash, files2, files);
      ContentsCut(files0, atCrash, files);
    }

    /** As for MultiShardSpill, except that a file covered by one snapshot is open again after
        the restore and so stays covered by every later one. */
    method CrashAndReplay(lost: seq<(Key, L)>, replay: seq<(Key, L)>)
      returns (ghost kept: imap<Key, seq<L>>, ghost atCrash: map<Key, FileState<L>>)
      modifies this
      ensures forall k :: Appended(old(FileAt(files, k)).Flushed(), LinesFor(lost, k), FileAt(atCrash, k))
      ensures forall k :: k in kept && kept[k] <= LinesFor(lost, k)
      ensures forall k ::
                kept[k] == [] <==> old(FileAt(files, k)).Open? || FileAt(atCrash, k).disk == old(FileAt(files, k)).disk
      ensures forall k :: File(k) == old(File(k)) + kept[k] + LinesFor(replay, k)
      ensures forall k :: FileAt(files, k).Open? <==> old(FileAt(files, k)).Open? || LinesFor(replay, k) != []
    {
      hide FileAt, Grown, Appended, LinesFor, KeptLines, RestoredFile, OpenLengths, NumberAt;
      hide FileState.Content, FileState.Flushed, FileState.Truncated, FileState.Reopened;
      ghost var files0 := files;
      var committed := Snapshot();
      ghost var files1 := files;
      AppendAll(lost);
      atCrash := files;
      Crash();
      ghost var files2 := files;
      LogGrows(lost, files1, atCrash);
      LengthsReached(files0, files1, atCrash, files2);
      Restore(committed);
      ghost var files3 := files;
      FilesReopened(files0, files1, atCrash, files2, files3);
      AppendAll(replay);
      kept := imap k | true :: KeptLines(FileAt(files0, k), FileAt(atCrash, k));
      FilesAfterCrash(lost, replay, files0, atCrash, files3, files);
    }

    /** Any number of crashes: once open at a snapshot, a file is covered by every later one. */
    method CrashRounds(rounds: seq<Round<L>>) returns (ghost kept: seq<imap<Key, seq<L>>>)
      modifies this
      ensures |kept| == |rounds|
      ensures forall k :: AfterRounds(old(FileAt(files, k)), rounds, kept, k, FileAt(files, k), true)
    {
      hide AfterRounds, AfterRound, FileAt, LinesFor, Appended;
      kept := [];
      ghost var files0 := files;
      NoRounds(files0, true);
      var i := 0;
      while i < |rounds|
        invariant 0 <= i <= |rounds| && |kept| == i
        invariant forall k :: AfterRounds(FileAt(files0, k), rounds[..i], kept, k, FileAt(files, k), true)
      {
        ghost var before := files;
        ghost var k, c := CrashAndReplay(rounds[i].lost, rounds[i].replay);
        OneRound(before, c, rounds[i], k, files, true);
        MoreRounds(files0, rounds[..i], kept, before, rounds[i], k, files, true);
        kept := kept + [k];
        assert rounds[..i + 1] == rounds[..i] + [rounds[i]];
        i := i + 1;
      }
      assert rounds[..i] == rounds;
    }
  }

  /** The lines written after the snapshot that restore leaves on the disk. */
  ghost function KeptLines<L>(atSnapshot: FileState<L>, atCrash: FileState<L>): seq<L> {
    if atSnapshot.Open? || |atCrash.disk| < |atSnapshot.disk| then [] else atCrash.disk[|atSnapshot.disk|..]
  }

  ghost function RestoredFile<L>(atSnapshot: FileState<L>, atCrash: FileState<L>): FileState<L> {
    Closed(if atSnapshot.Open? && |atSnapshot.Content()| <= |atCrash.disk| then atCrash.disk[..|atSnapshot.Content()|]
           else atCrash.disk)
  }

  lemma LogGrows<K(!new), L(!new)>(log: seq<(K, L)>, before: map<K, FileState<L>>, after: map<K, FileState<L>>)
    requires forall k :: Appended(FileAt(before, k), LinesFor(log, k), FileAt(after, k))
    ensures Grown(before, after)
  {
    hide FileAt, LinesFor;
    forall k ensures GrownFile(FileAt(before, k), FileAt(after, k)) {
      assert Appended(FileAt(before, k), LinesFor(log, k), FileAt(after, k));
    }
  }

  /** No file is shorter at the crash than the snapshot recorded. */
  lemma LengthsReached<K(!new), L(!new)>(files0: map<K, FileState<L>>, files1: map<K, FileState<L>>,
      atCrash: map<K, FileState<L>>, files2: map<K, FileState<L>>)
    requires forall k :: FileAt(files1, k) == FileAt(files0, k).Flushed()
    requires Grown(files1, atCrash)
    requires forall k :: FileAt(files2, k) == Closed(FileAt(atCrash, k).disk)
    ensures forall k :: k in OpenLengths(files1) ==> OpenLengths(files1)[k] <= |FileAt(files2, k).disk|
    ensures forall k :: k in OpenLengths(files1) <==> FileAt(files0, k).Open?
    ensures forall k :: k in OpenLengths(files1) ==> OpenLengths(files1)[k] == |FileAt(files0, k).Content()|
  {
    forall k ensures k in OpenLengths(files1) <==> FileAt(files0, k).Open? {
      assert FileAt(files1, k) == FileAt(files0, k).Flushed();
    }
    forall k | k in OpenLengths(files1)
      ensures OpenLengths(files1)[k] == |FileAt(files0, k).Content()| <= |FileAt(files2, k).disk|
    {
      assert FileAt(files1, k) == FileAt(files0, k).Flushed();
      assert GrownFile(FileAt(files1, k), FileAt(atCrash, k));
    }
  }

  lemma FilesCut<K(!new), L(!new)>(files0: map<K, FileState<L>>, files1: map<K, FileState<L>>,
      atCrash: map<K, FileState<L>>, files2: map<K, FileState<L>>, files3: map<K, FileState<L>>)
    requires forall k :: FileAt(files1, k) == FileAt(files0, k).Flushed()
    requires Grown(files1, atCrash)
    requires forall k :: FileAt(files2, k) == Closed(FileAt(atCrash, k).disk)
    requires forall k :: k in OpenLengths(files1) ==> OpenLengths(files1)[k] <= |FileAt(files2, k).disk|
    requires forall k ::
               FileAt(files3, k)
               == FileAt(files2, k).Truncated(k in OpenLengths(files1), NumberAt(OpenLengths(files1), k))
    ensures forall k :: FileAt(files3, k).Content() == RestoredFile(FileAt(files0, k), FileAt(atCrash, k)).disk
    ensures forall k :: FileAt(files3, k).Closed?
  {
    LengthsReached(files0, files1, atCrash, files2);
    hide FileAt, Grown, OpenLengths;
    forall k
      ensures FileAt(files3, k).Content() == RestoredFile(FileAt(files0, k), FileAt(atCrash, k)).disk
      ensures FileAt(files3, k).Closed?
    {
      assert FileAt(files2, k) == Closed(FileAt(atCrash, k).disk);
    }
  }

  lemma ContentsCut<K(!new), L(!new)>(files0: map<K, FileState<L>>, atCrash: map<K, FileState<L>>,
                                      files3: map<K, FileState<L>>)
    requires forall k :: FileAt(files0, k) == FileAt(files0, k).Flushed()
    requires Grown(files0, atCrash)
    requires forall k :: FileAt(files3, k).Content() == RestoredFile(FileAt(files0, k), FileAt(atCrash, k)).disk
    ensures forall k ::
              FileAt(files3, k).Content()
              == FileAt(files0, k).Content() + KeptLines(FileAt(files0, k), FileAt(atCrash, k))
    ensures forall k :: FileAt(files3, k).Content() <= FileAt(atCrash, k).Content()
  {
    hide FileAt, KeptLines, RestoredFile, FileState.Content, FileState.Flushed;
    forall k
      ensures FileAt(files3, k).Content()
              == FileAt(files0, k).Content() + KeptLines(FileAt(files0, k), FileAt(atCrash, k))
      ensures FileAt(files3, k).Content() <= FileAt(atCrash, k).Content()
    {
      assert GrownFile(FileAt(files0, k), FileAt(atCrash, k)) by { hide GrownFile; }
      ContentCut(FileAt(files0, k), FileAt(atCrash, k));
    }
  }

  lemma ContentCut<L(!new)>(f: FileState<L>, g: FileState<L>)
    requires f == f.Flushed() && GrownFile(f, g)
    ensures RestoredFile(f, g).disk == f.Content() + KeptLines(f, g) <= g.Content()
  {}

  lemma FilesReopened<K(!new), L(!new)>(files0: map<K, FileState<L>>, files1: map<K, FileState<L>>,
      atCrash: map<K, FileState<L>>, files2: map<K, FileState<L>>, files3: map<K, FileState<L>>)
    requires forall k :: FileAt(files1, k) == FileAt(files0, k).Flushed()
    requires Grown(files1, atCrash)
    requires forall k :: FileAt(files2, k) == Closed(FileAt(atCrash, k).disk)
    requires forall k :: k in OpenLengths(files1) ==> OpenLengths(files1)[k] <= |FileAt(files2, k).disk|
    requires forall k ::
               FileAt(files3, k)
               == FileAt(files2, k).Reopened(k in OpenLengths(files1), NumberAt(OpenLengths(files1), k))
    ensures forall k :: FileAt(files3, k).Content() == RestoredFile(FileAt(files0, k), FileAt(atCrash, k)).disk
    ensures forall k :: FileAt(files3, k).Open? <==> FileAt(files0, k).Open?
  {
    LengthsReached(files0, files1, atCrash, files2);
    hide FileAt, Grown, OpenLengths;
    forall k
      ensures FileAt(files3, k).Content() == RestoredFile(FileAt(files0, k), FileAt(atCrash, k)).disk
      ensures FileAt(files3, k).Open? <==> FileAt(files0, k).Open?
    {
      assert FileAt(files2, k) == Closed(FileAt(atCrash, k).disk);
    }
  }

  lemma FilesAfterCrash<K(!new), L(!new)>(lost: seq<(K, L)>, replay: seq<(K, L)>, files0: map<K, FileState<L>>,
      files2: map<K, FileState<L>>, files3: map<K, FileState<L>>, files4: map<K, FileState<L>>)
    requires forall k :: Appended(FileAt(files0, k).Flushed(), LinesFor(lost, k), FileAt(files2, k))
    requires forall k :: FileAt(files3, k).Content() == RestoredFile(FileAt(files0, k), FileAt(files2, k)).disk
    requires forall k :: Appended(FileAt(files3, k), LinesFor(replay, k), FileAt(files4, k))
    ensures forall k :: KeptLines(FileAt(files0, k), FileAt(files2, k)) <= LinesFor(lost, k)
    ensures forall k :: KeptLines(FileAt(files0, k), FileAt(files2, k)) == [] <==>
                        FileAt(files0, k).Open? || FileAt(files2, k).disk == FileAt(files0, k).disk
    ensures forall k ::
      FileAt(files4, k).Content()
        == FileAt(files0, k).Content() + KeptLines(FileAt(files0, k), FileAt(files2, k)) + LinesFor(replay, k)
    ensures forall k :: FileAt(files4, k).Open? <==> FileAt(files3, k).Open? || LinesFor(replay, k) != []
  {
    forall k
      ensures KeptLines(FileAt(files0, k), FileAt(files2, k)) <= LinesFor(lost, k)
      ensures KeptLines(FileAt(files0, k), FileAt(files2, k)) == [] <==>
              FileAt(files0, k).Open? || FileAt(files2, k).disk == FileAt(files0, k).disk
      ensures FileAt(files4, k).Content() ==
        FileAt(files0, k).Content() + KeptLines(FileAt(files0, k), FileAt(files2, k)) + LinesFor(replay, k)
      ensures FileAt(files4, k).Open? <==> FileAt(files3, k).Open? || LinesFor(replay, k) != []
    {
      FileAfterCrash(FileAt(files0, k), LinesFor(lost, k), FileAt(files2, k), FileAt(files3, k), LinesFor(replay, k),
                     FileAt(files4, k));
    }
  }

  /** One file through a snapshot, the lost appends, the crash, the restore and the replay. */
  lemma FileAfterCrash<L(!new)>(f: FileState<L>, lost: seq<L>, g: FileState<L>, h: FileState<L>, replay: seq<L>,
                                r: FileState<L>)
    requires Appended(f.Flushed(), lost, g)
    requires h.Content() == RestoredFile(f, g).disk
    requires Appended(h, replay, r)
    ensures KeptLines(f, g) <= lost
    ensures KeptLines(f, g) == [] <==> f.Open? || g.disk == f.disk
    ensures r.Content() == f.Content() + KeptLines(f, g) + replay
    ensures r.Open? <==> h.Open? || replay != []
  {
    var base := f.Content();
    assert f.Flushed().disk == f.Flushed().Content() == base <= g.disk <= g.Content() == base + lost;
    assert f.Open? || base == f.disk;
    KeptOf(base, g.disk, lost);
    hide *;
    hide FileState.Content, FileState.Flushed;
    AfterReplay(f, g, h, replay, r);
  }

  lemma KeptOf<L>(base: seq<L>, disk: seq<L>, lost: seq<L>)
    requires base <= disk <= base + lost
    ensures disk == base + disk[|base|..] && disk[|base|..] == lost[..|disk| - |base|]
    ensures disk[..|base|] == base
  {}

  lemma AfterReplay<L(!new)>(f: FileState<L>, g: FileState<L>, h: FileState<L>, replay: seq<L>, r: FileState<L>)
    requires f.Content() <= g.disk && h.Content() == RestoredFile(f, g).disk && Appended(h, replay, r)
    ensures r.Content() == f.Content() + KeptLines(f, g) + replay
    ensures r.Open? <==> h.Open? || replay != []
  {
    var base := f.Content();
    assert h.Content() == base + KeptLines(f, g);
  }

  // ---- Several crashes ---------------------------------------------------------------------------

  /** What is written after a snapshot and lost, and what is written after the restore, up to the next
      snapshot. */
  datatype Round<L> = Round(lost: seq<(Key, L)>, replay: seq<(Key, L)>)

  ghost function KeptAt<L>(kept: imap<Key, seq<L>>, k: Key): seq<L> {
    if k in kept then kept[k] else []
  }

  /** What the rounds leave in a file. */
  ghost function Written<L>(rounds: seq<Round<L>>, kept: seq<imap<Key, seq<L>>>, k: Key): seq<L>
    requires |kept| == |rounds|
  {
    if rounds == [] then []
    else
      var n := |rounds| - 1;
      Written(rounds[..n], kept[..n], k) + KeptAt(kept[n], k) + LinesFor(rounds[n].replay, k)
  }

  /** The file has an open handle at the snapshot of round i; `reopens` says whether restore opens the
      files it cuts back. */
  ghost predicate OpenAt<L>(open: bool, rounds: seq<Round<L>>, k: Key, i: nat, reopens: bool)
    requires i <= |rounds|
  {
    if i == 0 then open
      else LinesFor(rounds[i - 1].replay, k) != [] || (reopens && OpenAt(open, rounds, k, i - 1, reopens))
  }

  ghost predicate AfterRounds<L(!new)>(f: FileState<L>, rounds: seq<Round<L>>, kept: seq<imap<Key, seq<L>>>, k: Key,
                                       g: FileState<L>, reopens: bool)
    requires |kept| == |rounds|
  {
    && g.Content() == f.Content() + Written(rounds, kept, k)
    && (g.Open? <==> OpenAt(f.Open?, rounds, k, |rounds|, reopens))
    && (forall i :: 0 <= i < |rounds| ==> KeptFits(OpenAt(f.Open?, rounds, k, i, reopens), rounds[i], kept[i], k))
  }

  /** Lost lines are kept only by a file without an open handle at the snapshot. */
  ghost predicate KeptFits<L(!new)>(open: bool, round: Round<L>, kept: imap<Key, seq<L>>, k: Key) {
    KeptAt(kept, k) <= LinesFor(round.lost, k) && (open ==> KeptAt(kept, k) == [])
  }

  /** One file through one round. */
  ghost predicate AfterRound<L(!new)>(f: FileState<L>, round: Round<L>, kept: imap<Key, seq<L>>, k: Key,
                                      g: FileState<L>, reopens: bool)
  {
    && g.Content() == f.Content() + KeptAt(kept, k) + LinesFor(round.replay, k)
    && KeptFits(f.Open?, round, kept, k)
    && (g.Open? <==> LinesFor(round.replay, k) != [] || (reopens && f.Open?))
  }

  lemma NoRounds<L(!new)>(files: map<Key, FileState<L>>, reopens: bool)
    ensures forall k :: AfterRounds(FileAt(files, k), [], [], k, FileAt(files, k), reopens)
  {}

  lemma OneRound<L(!new)>(files0: map<Key, FileState<L>>, atCrash: map<Key, FileState<L>>, round: Round<L>,
                          kept: imap<Key, seq<L>>,
                          files1: map<Key, FileState<L>>, reopens: bool)
    requires forall k :: k in kept && kept[k] <= LinesFor(round.lost, k)
    requires forall k :: kept[k] == [] <==> FileAt(files0, k).Open? || FileAt(atCrash, k).disk == FileAt(files0, k).disk
    requires forall k ::
               FileAt(files1, k).Content() == FileAt(files0, k).Content() + kept[k] + LinesFor(round.replay, k)
    requires forall k ::
               FileAt(files1, k).Open? <==> LinesFor(round.replay, k) != [] || (reopens && FileAt(files0, k).Open?)
    ensures forall k :: AfterRound(FileAt(files0, k), round, kept, k, FileAt(files1, k), reopens)
  {}

  lemma MoreRounds<L(!new)>(files0: map<Key, FileState<L>>, rounds: seq<Round<L>>, kept: seq<imap<Key, seq<L>>>,
                            files1: map<Key, FileState<L>>,
                            round: Round<L>, more: imap<Key, seq<L>>, files2: map<Key, FileState<L>>, reopens: bool)
    requires |kept| == |rounds|
    requires forall k :: AfterRounds(FileAt(files0, k), rounds, kept, k, FileAt(files1, k), reopens)
    requires forall k :: AfterRound(FileAt(files1, k), round, more, k, FileAt(files2, k), reopens)
    ensures forall k :: AfterRounds(FileAt(files0, k), rounds + [round], kept + [more], k, FileAt(files2, k), reopens)
  {
    hide AfterRounds, AfterRound, FileAt;
    forall k ensures AfterRounds(FileAt(files0, k), rounds + [round], kept + [more], k, FileAt(files2, k), reopens) {
      MoreRoundsAt(FileAt(files0, k), rounds, kept, k, FileAt(files1, k), round, more, FileAt(files2, k), reopens);
    }
  }

  lemma {:induction false} OpenAtSnoc<L>(open: bool, rounds: seq<Round<L>>, round: Round<L>, k: Key, i: nat,
                                         reopens: bool)
    requires i <= |rounds|
    ensures OpenAt(open, rounds + [round], k, i, reopens) == OpenAt(open, rounds, k, i, reopens)
  {
    if i > 0 {
      OpenAtSnoc(open, rounds, round, k, i - 1, reopens);
    }
  }

  lemma MoreRoundsAt<L(!new)>(f: FileState<L>, rounds: seq<Round<L>>, kept: seq<imap<Key, seq<L>>>, k: Key,
                              g: FileState<L>,
                              round: Round<L>, more: imap<Key, seq<L>>, h: FileState<L>, reopens: bool)
    requires |kept| == |rounds| && AfterRounds(f, rounds, kept, k, g, reopens)
             && AfterRound(g, round, more, k, h, reopens)
    ensures AfterRounds(f, rounds + [round], kept + [more], k, h, reopens)
  {
    var rounds2, kept2, n := rounds + [round], kept + [more], |rounds|;
    hide LinesFor, Written, OpenAt, KeptFits, KeptAt, FileState.Content;
    WrittenSnoc(rounds, kept, k, round, more);
    OpenAtSnoc(f.Open?, rounds, round, k, n, reopens);
    OpenAtLast(f.Open?, rounds2, k, n, reopens);
    assert h.Content() == f.Content() + Written(rounds2, kept2, k);
    forall i | 0 <= i < n + 1 ensures KeptFits(OpenAt(f.Open?, rounds2, k, i, reopens), rounds2[i], kept2[i], k) {
      if i < n {
        assert KeptFits(OpenAt(f.Open?, rounds, k, i, reopens), rounds[i], kept[i], k);
        OpenAtSnoc(f.Open?, rounds, round, k, i, reopens);
      }
    }
  }

  lemma WrittenSnoc<L(!new)>(rounds: seq<Round<L>>, kept: seq<imap<Key, seq<L>>>, k: Key, round: Round<L>,
                             more: imap<Key, seq<L>>)
    requires |kept| == |rounds|
    ensures Written(rounds + [round], kept + [more], k)
            == Written(rounds, kept, k) + KeptAt(more, k) + LinesFor(round.replay, k)
  {
    hide LinesFor, KeptAt;
    assert (rounds + [round])[..|rounds|] == rounds && (kept + [more])[..|rounds|] == kept;
  }

  lemma OpenAtLast<L>(open: bool, rounds: seq<Round<L>>, k: Key, n: nat, reopens: bool)
    requires n + 1 == |rounds|
    ensures OpenAt(open, rounds, k, n + 1, reopens)
            == (LinesFor(rounds[n].replay, k) != [] || (reopens && OpenAt(open, rounds, k, n, reopens)))
  {
    hide LinesFor;
  }

  /** A line written to a file that had no open handle at the snapshot, flushed and lost, is there twice
      after the replay. */
  lemma KeptLineIsDoubled<L(!new)>(lines: seq<L>, line: L, full: bool)
    ensures var atSnapshot := Closed(lines).Flushed();
            var atCrash := atSnapshot.Write(line, true);
            var restored := Closed(atCrash.disk).Truncated(false, 0);
            && KeptLines(atSnapshot, atCrash) == [line]
            && restored.Write(line, full).Content() == lines + [line] + [line]
  {}

  /** Restore, snapshot, append, crash: the file the first restore covered is not covered by the second
      snapshot unless restore opened it again. */
  lemma SecondSnapshot<L(!new)>(lines: seq<L>, line: L, full: bool)
    ensures var cut := Open(lines, []).Truncated(true, |lines|);
            var atCrash := cut.Flushed().Write(line, true);
            Closed(atCrash.disk).Truncated(cut.Open?, |lines|).Write(line, full).Content() == lines + [line] + [line]
    ensures var cut := Closed(lines).Reopened(true, |lines|);
            var atCrash := cut.Flushed().Write(line, true);
            Closed(atCrash.disk).Reopened(cut.Open?, |lines|).Write(line, full).Content() == lines + [line]
  {}

  /** What a snapshot records: the length of every file with an open handle, and no other. */
  ghost function OpenLengths<K, L>(files: map<K, FileState<L>>): map<K, nat> {
    map k | k in files && files[k].Open? :: |files[k].Content()|
  }
}

/** Flat shard accounting: a stateless node publishes to several routes and fleets, whose queues are
    also one flat list, and counts under the flat index what it publishes, so that the end-of-stream
    later sent to each queue carries that queue's true number. */
module FlatShards {
  import opened Common
  import opened Deduplicator
  import opened Ledger

  /** A downstream queue. */
  datatype Tx = Tx(name: int)

  /** A list of at least one shard. */
  type Fleet = f: seq<Tx> | |f| > 0 witness [Tx(0)]

  function CountsOf(m: map<ClientId, Counts>, c: ClientId): Counts {
    if c in m then m[c] else map[]
  }

  /** Per-client per-shard sent counts. */
  class SentCounts {
    var counts: map<ClientId, Counts>

    constructor ()
      ensures counts == map[]
    {
      counts := map[];
    }

    method Add(client: ClientId, shard: nat)
      modifies this
      ensures forall c, s ::
        NumberAt(CountsOf(counts, c), s)
          == old(NumberAt(CountsOf(counts, c), s)) + (if c == client && s == shard then 1 else 0)
    {
      var mine := CountsOf(counts, client);
      counts := counts[client := mine[shard := NumberAt(mine, shard) + 1]];
    }

    method Pop(client: ClientId) returns (mine: Counts)
      modifies this
      ensures mine == old(CountsOf(counts, client)) && counts == old(counts) - {client}
    {
      mine := CountsOf(counts, client);
      counts := counts - {client};
    }

    method Restore(snapshot: map<ClientId, Counts>)
      modifies this
      ensures counts == snapshot
    {
      counts := snapshot;
    }
  }

  // ---- The flat list ------------------------------------------------------------------------------

  /** Flat index of the first shard of fleet number f. */
  function Base(fleets: seq<Fleet>, f: nat): nat
    requires f <= |fleets|
  {
    |Flatten(fleets[..f])|
  }

  lemma NoBase(fleets: seq<Fleet>)
    ensures Base(fleets, 0) == 0
  {}

  /** Shard number i of fleet number f sits at its base plus i in the flat list. */
  lemma FlatIndex(fleets: seq<Fleet>, f: nat, i: nat)
    requires f < |fleets| && i < |fleets[f]|
    ensures Base(fleets, f) + i < |Flatten(fleets)|
    ensures Flatten(fleets)[Base(fleets, f) + i] == fleets[f][i]
    ensures Base(fleets, f + 1) == Base(fleets, f) + |fleets[f]|
  {
    hide Flatten;
    assert fleets == fleets[..f] + ([fleets[f]] + fleets[f + 1..]);
    FlattenConcat(fleets[..f], [fleets[f]] + fleets[f + 1..]);
    FlattenCons(fleets[f], fleets[f + 1..]);
    assert fleets[..f + 1] == fleets[..f] + [fleets[f]];
    FlattenSnoc(fleets[..f], fleets[f]);
  }

  // ---- What was published ---------------------------------------------------------------------------

  datatype Published = Published(client: ClientId, tx: Tx, payload: int)

  ghost function To(client: ClientId, tx: Tx): Published -> nat {
    (p: Published) => if p.client == client && p.tx == tx then 1 else 0
  }

  /** Number of messages of a client published on a queue. */
  ghost function PublishedOn(log: seq<Published>, client: ClientId, tx: Tx): nat {
    SumOf(To(client, tx), log)
  }

  /** What was published since the counts of the client were last given up. */
  ghost function Since(log: seq<Published>, starts: map<ClientId, nat>, client: ClientId): seq<Published> {
    if NumberAt(starts, client) <= |log| then log[NumberAt(starts, client)..] else []
  }

  /** For every client and every flat index, the count equals what was published on that queue since
      the client's counts were last given up. */
  ghost predicate Tallied(counts: map<ClientId, Counts>, externalTxs: seq<Tx>, log: seq<Published>,
                          starts: map<ClientId, nat>)
  {
    && (forall c :: NumberAt(starts, c) <= |log|)
    && (forall c, s ::
          0 <= s < |externalTxs| ==>
          NumberAt(CountsOf(counts, c), s) == PublishedOn(Since(log, starts, c), c, externalTxs[s]))
    && (forall c, s :: s >= |externalTxs| ==> NumberAt(CountsOf(counts, c), s) == 0)
  }

  lemma SinceConcat(log: seq<Published>, more: seq<Published>, starts: map<ClientId, nat>, c: ClientId, tx: Tx)
    requires NumberAt(starts, c) <= |log|
    ensures PublishedOn(Since(log + more, starts, c), c, tx)
            == PublishedOn(Since(log, starts, c), c, tx) + PublishedOn(more, c, tx)
  {
    assert Since(log + more, starts, c) == Since(log, starts, c) + more;
    SumOfConcat(To(c, tx), Since(log, starts, c), more);
  }

  lemma PublishedOne(p: Published, client: ClientId, tx: Tx)
    ensures PublishedOn([p], client, tx) == if p.client == client && p.tx == tx then 1 else 0
  {
    SumOfOne(To(client, tx), p);
  }

  lemma TalliedSnoc(counts: map<ClientId, Counts>, after: map<ClientId, Counts>, externalTxs: seq<Tx>,
                    log: seq<Published>, starts: map<ClientId, nat>,
                    p: Published, shard: nat)
    requires Tallied(counts, externalTxs, log, starts) && Distinct(externalTxs)
    requires shard < |externalTxs| && externalTxs[shard] == p.tx
    requires forall c, s ::
               NumberAt(CountsOf(after, c), s)
               == NumberAt(CountsOf(counts, c), s) + (if c == p.client && s == shard then 1 else 0)
    ensures Tallied(after, externalTxs, log + [p], starts)
  {
    hide Since, PublishedOn, CountsOf;
    forall c, s | 0 <= s < |externalTxs|
      ensures NumberAt(CountsOf(after, c), s) == PublishedOn(Since(log + [p], starts, c), c, externalTxs[s])
    {
      SinceConcat(log, [p], starts, c, externalTxs[s]);
      PublishedOne(p, c, externalTxs[s]);
      assert s != shard ==> externalTxs[s] != externalTxs[shard];
    }
  }

  /** Giving up one client's counts starts its tally again and leaves the others'. */
  lemma TalliedReset(counts: map<ClientId, Counts>, externalTxs: seq<Tx>, log: seq<Published>,
                     starts: map<ClientId, nat>, client: ClientId)
    requires Tallied(counts, externalTxs, log, starts)
    ensures Tallied(counts - {client}, externalTxs, log, starts[client := |log|])
  {
    hide Since, CountsOf, NumberAt, PublishedOn;
    NothingPublished();
    var starts2, counts2 := starts[client := |log|], counts - {client};
    forall c
      ensures NumberAt(starts2, c) <= |log|
      ensures Since(log, starts2, c) == if c == client then [] else Since(log, starts, c)
      ensures CountsOf(counts2, c) == if c == client then map[] else CountsOf(counts, c)
    {
      SinceReset(log, starts, client, c);
      CountsReset(counts, client, c);
    }
  }

  lemma NothingPublished()
    ensures forall c, tx :: PublishedOn([], c, tx) == 0
    ensures forall s :: NumberAt<int>(map[], s) == 0
  {}

  lemma SinceReset(log: seq<Published>, starts: map<ClientId, nat>, client: ClientId, c: ClientId)
    requires NumberAt(starts, c) <= |log|
    ensures NumberAt(starts[client := |log|], c) <= |log|
    ensures Since(log, starts[client := |log|], c) == if c == client then [] else Since(log, starts, c)
  {}

  lemma CountsReset(counts: map<ClientId, Counts>, client: ClientId, c: ClientId)
    ensures CountsOf(counts - {client}, c) == if c == client then map[] else CountsOf(counts, c)
  {}

  /** The identity's own shard: the same for a message and for its re-emission after a crash. */
  function ShardOf(id: Id, shards: nat): (shard: nat)
    requires shards > 0
    ensures shard < shards
  {
    IdKey(id) % shards
  }

  /** The last four bytes of the producer, as a number, plus the stamp. */
  function IdKey(id: Id): int {
    id.producer.name % 0x1_0000_0000 + id.seqNo
  }

  /** Consecutive stamps of a producer take the shards in turn. */
  lemma NextStampNextShard(producer: Producer, seqNo: nat, shards: nat)
    requires shards > 0
    ensures ShardOf(Id(producer, seqNo + 1), shards)
         == if ShardOf(Id(producer, seqNo), shards) + 1 == shards then 0 else ShardOf(Id(producer, seqNo), shards) + 1
  {
    var key := IdKey(Id(producer, seqNo));
    var q, r := key / shards, key % shards;
    assert key == q * shards + r;
    if r + 1 == shards {
      assert (q + 1) * shards == q * shards + shards;
      Quotient(key + 1, shards, q + 1, 0);
    } else {
      Quotient(key + 1, shards, q, r + 1);
    }
  }

  /** So any `shards` consecutive stamps of a producer fall on as many different shards, each on one. */
  lemma {:induction false} StampsTakeTurns(producer: Producer, first: nat, shards: nat, i: nat)
    requires shards > 0 && i < shards
    ensures var start := ShardOf(Id(producer, first), shards);
            ShardOf(Id(producer, first + i), shards) == if start + i < shards then start + i else start + i - shards
  {
    if i > 0 {
      StampsTakeTurns(producer, first, shards, i - 1);
      NextStampNextShard(producer, first + i - 1, shards);
    }
  }

  lemma ConsecutiveStampsSpread(producer: Producer, first: nat, shards: nat)
    requires shards > 0
    ensures forall a: nat, b: nat :: first <= a < b < first + shards ==>
              ShardOf(Id(producer, a), shards) != ShardOf(Id(producer, b), shards)
  {
    hide ShardOf;
    forall a: nat, b: nat | first <= a < b < first + shards
      ensures ShardOf(Id(producer, a), shards) != ShardOf(Id(producer, b), shards)
    {
      StampsTakeTurns(producer, first, shards, a - first);
      StampsTakeTurns(producer, first, shards, b - first);
    }
  }

  /** What both stateless nodes share: the counts, and everything published so far. */
  class StatelessNode {
    const externalTxs: seq<Tx>
    const sent: SentCounts
    var published: seq<Published>
    ghost var starts: map<ClientId, nat>

    ghost predicate Valid()
      reads this, sent
    {
      Distinct(externalTxs) && Tallied(sent.counts, externalTxs, published, starts)
    }

    constructor (externalTxs: seq<Tx>, sent: SentCounts)
      requires Distinct(externalTxs) && sent.counts == map[]
      ensures Valid() && published == [] && starts == map[] && this.externalTxs == externalTxs && this.sent == sent
    {
      this.externalTxs, this.sent, published := externalTxs, sent, [];
      starts := map[];
    }

    /** One send and the count that goes with it. */
    method Send(client: ClientId, shard: nat, tx: Tx, payload: int)
      requires Valid() && shard < |externalTxs| && externalTxs[shard] == tx
      modifies this, sent
      ensures Valid() && published == old(published) + [Published(client, tx, payload)] && starts == old(starts)
    {
      hide Tallied;
      ghost var before := sent.counts;
      sent.Add(client, shard);
      TalliedSnoc(before, sent.counts, externalTxs, published, starts, Published(client, tx, payload), shard);
      published := published + [Published(client, tx, payload)];
    }

    /** When the client's input is complete its counts are reported and given up: the number under
        each flat index is what that queue was sent since they were last given up. */
    method Report(client: ClientId) returns (report: Counts)
      requires Valid()
      modifies this, sent
      ensures Valid() && published == old(published) && starts == old(starts)[client := |published|]
      ensures forall s :: 0 <= s < |externalTxs| ==>
                NumberAt(report, s) == PublishedOn(old(Since(published, starts, client)), client, externalTxs[s])
    {
      TalliedReset(sent.counts, externalTxs, published, starts, client);
      report := sent.Pop(client);
      starts := starts[client := |published|];
    }

    /** An abort gives them up unreported. */
    method Discard(client: ClientId)
      requires Valid()
      modifies this, sent
      ensures Valid() && published == old(published) && starts == old(starts)[client := |published|]
    {
      TalliedReset(sent.counts, externalTxs, published, starts, client);
      hide Tallied;
      var unused := sent.Pop(client);
      starts := starts[client := |published|];
    }
  }

  // ---- Copies ----------------------------------------------------------------------------------------

  /** What is sent for one key: a copy to every fleet, to the shard the key falls on. */
  ghost function CopiesOf(fleets: seq<Fleet>, client: ClientId, key: int, payloads: seq<int>): (copies: seq<Published>)
    requires |payloads| == |fleets|
    ensures |copies| == |fleets|
  {
    seq(|fleets|, f requires 0 <= f < |fleets| => Published(client, fleets[f][key % |fleets[f]|], payloads[f]))
  }

  lemma CopyAt(fleets: seq<Fleet>, client: ClientId, key: int, payloads: seq<int>, f: nat)
    requires |payloads| == |fleets| && f < |fleets|
    ensures CopiesOf(fleets, client, key, payloads)[f]
         == Published(client, fleets[f][key % |fleets[f]|], payloads[f])
  {}

  lemma FlatDistinct(fleets: seq<Fleet>, f: nat, i: nat, g: nat, j: nat)
    requires Distinct(Flatten(fleets)) && f < |fleets| && i < |fleets[f]| && g < |fleets| && j < |fleets[g]|
    requires fleets[f][i] == fleets[g][j]
    ensures f == g && i == j
  {
    FlatIndex(fleets, f, i);
    FlatIndex(fleets, g, j);
    if f < g {
      BasesGrow(fleets, f + 1, g);
    } else if g < f {
      BasesGrow(fleets, g + 1, f);
    }
  }

  lemma {:induction false} BasesGrow(fleets: seq<Fleet>, f: nat, g: nat)
    requires f <= g <= |fleets|
    ensures Base(fleets, f) <= Base(fleets, g)
    decreases g - f
  {
    hide Base;
    if f < g {
      FlatIndex(fleets, f, 0);
      BasesGrow(fleets, f + 1, g);
    }
  }

  lemma {:induction false} NoneAmong(log: seq<Published>, c: ClientId, tx: Tx)
    requires forall k :: 0 <= k < |log| ==> !(log[k].client == c && log[k].tx == tx)
    ensures PublishedOn(log, c, tx) == 0
  {
    SumOfZero(To(c, tx), log);
  }

  /** A queue gets one copy of a key that falls on it and none of any other. */
  lemma OneCopyPerFleet(fleets: seq<Fleet>, client: ClientId, key: int, payloads: seq<int>, c: ClientId, f: nat, i: nat)
    requires Distinct(Flatten(fleets)) && |payloads| == |fleets| && f < |fleets| && i < |fleets[f]|
    ensures PublishedOn(CopiesOf(fleets, client, key, payloads), c, fleets[f][i])
            == if c == client && key % |fleets[f]| == i then 1 else 0
  {
    var copies, tx := CopiesOf(fleets, client, key, payloads), fleets[f][i];
    assert copies == copies[..f] + [copies[f]] + copies[f + 1..];
    SumOfConcat(To(c, tx), copies[..f] + [copies[f]], copies[f + 1..]);
    SumOfConcat(To(c, tx), copies[..f], [copies[f]]);
    PublishedOne(copies[f], c, tx);
    forall g: nat | g < |fleets| && copies[g].tx == tx ensures g == f && key % |fleets[f]| == i {
      FlatDistinct(fleets, f, i, g, key % |fleets[g]|);
    }
    NoneAmong(copies[..f], c, tx);
    NoneAmong(copies[f + 1..], c, tx);
  }

  /** What a queue was sent, in order. */
  ghost function PayloadsTo(log: seq<Published>, client: ClientId, tx: Tx): seq<int> {
    if log == [] then []
    else
      var last := log[|log| - 1];
      PayloadsTo(log[..|log| - 1], client, tx) + if last.client == client && last.tx == tx then [last.payload] else []
  }

  lemma {:induction false} PayloadsConcat(a: seq<Published>, b: seq<Published>, client: ClientId, tx: Tx)
    ensures PayloadsTo(a + b, client, tx) == PayloadsTo(a, client, tx) + PayloadsTo(b, client, tx)
  {
    if b == [] {
      assert a + b == a;
    } else {
      assert (a + b)[..|a + b| - 1] == a + b[..|b| - 1];
      PayloadsConcat(a, b[..|b| - 1], client, tx);
    }
  }

  lemma {:induction false} NoPayloads(log: seq<Published>, c: ClientId, tx: Tx)
    requires forall k :: 0 <= k < |log| ==> !(log[k].client == c && log[k].tx == tx)
    ensures PayloadsTo(log, c, tx) == []
  {
    if log != [] {
      NoPayloads(log[..|log| - 1], c, tx);
    }
  }

  /** The copy a queue gets is its fleet's payload. */
  lemma PayloadPerFleet(fleets: seq<Fleet>, client: ClientId, key: int, payloads: seq<int>, c: ClientId, f: nat, i: nat)
    requires Distinct(Flatten(fleets)) && |payloads| == |fleets| && f < |fleets| && i < |fleets[f]|
    ensures PayloadsTo(CopiesOf(fleets, client, key, payloads), c, fleets[f][i])
            == if c == client && key % |fleets[f]| == i then [payloads[f]] else []
  {
    hide *;
    var copies, tx := CopiesOf(fleets, client, key, payloads), fleets[f][i];
    assert copies == copies[..f] + ([copies[f]] + copies[f + 1..]);
    PayloadsConcat(copies[..f], [copies[f]] + copies[f + 1..], c, tx);
    PayloadsConcat([copies[f]], copies[f + 1..], c, tx);
    PayloadOfOne(copies[f], c, tx);
    CopyAt(fleets, client, key, payloads, f);
    forall g: nat | g < |fleets| && copies[g].tx == tx ensures g == f && key % |fleets[f]| == i {
      CopyAt(fleets, client, key, payloads, g);
      FlatDistinct(fleets, f, i, g, key % |fleets[g]|);
    }
    NoPayloads(copies[..f], c, tx);
    NoPayloads(copies[f + 1..], c, tx);
  }

  lemma PayloadOfOne(p: Published, c: ClientId, tx: Tx)
    ensures PayloadsTo([p], c, tx) == if p.client == c && p.tx == tx then [p.payload] else []
  {
    assert PayloadsTo([p][..0], c, tx) == [];
  }

  // ---- The group-by -----------------------------------------------------------------------------------

  /** One group of the batch: a partial result and its affinity. */
  datatype Group = Group(payload: int, affinity: int)

  /** One copy of the group to every fleet, to the shard of its affinity. */
  ghost function CopiesOfGroup(fleets: seq<Fleet>, client: ClientId, g: Group): (copies: seq<Published>)
    ensures |copies| == |fleets|
  {
    CopiesOf(fleets, client, g.affinity, seq(|fleets|, _ => g.payload))
  }

  ghost function CopiesOfAll(fleets: seq<Fleet>, client: ClientId, groups: seq<Group>): seq<Published> {
    if groups == [] then []
    else CopiesOfAll(fleets, client, groups[..|groups| - 1]) + CopiesOfGroup(fleets, client, groups[|groups| - 1])
  }

  /** The payloads of the groups whose affinity falls on shard i of n, in order. */
  function FallenOn(groups: seq<Group>, n: nat, i: nat): seq<int>
    requires n > 0
  {
    if groups == [] then []
    else
      var last := groups[|groups| - 1];
      FallenOn(groups[..|groups| - 1], n, i) + if last.affinity % n == i then [last.payload] else []
  }

  /** Of the copies of a batch every queue gets the groups that fall on it and nothing else, in order. */
  lemma {:induction false} QueueGetsItsGroups(fleets: seq<Fleet>, client: ClientId, groups: seq<Group>, c: ClientId,
                                              f: nat, i: nat)
    requires Distinct(Flatten(fleets)) && f < |fleets| && i < |fleets[f]|
    ensures PayloadsTo(CopiesOfAll(fleets, client, groups), c, fleets[f][i])
            == if c == client then FallenOn(groups, |fleets[f]|, i) else []
  {
    hide Distinct, Flatten, CopiesOf;
    if groups != [] {
      var n := |groups| - 1;
      QueueGetsItsGroups(fleets, client, groups[..n], c, f, i);
      PayloadsConcat(CopiesOfAll(fleets, client, groups[..n]), CopiesOfGroup(fleets, client, groups[n]), c,
                     fleets[f][i]);
      PayloadPerFleet(fleets, client, groups[n].affinity, seq(|fleets|, _ => groups[n].payload), c, f, i);
    }
  }

  method GroupByOnData(node: StatelessNode, fleets: seq<Fleet>, client: ClientId, groups: seq<Group>)
    requires node.Valid() && node.externalTxs == Flatten(fleets)
    modifies node, node.sent
    ensures node.Valid() && node.starts == old(node.starts)
    ensures node.published == old(node.published) + CopiesOfAll(fleets, client, groups)
    ensures forall f: nat, i: nat, c :: f < |fleets| && i < |fleets[f]| ==>
              PayloadsTo(node.published[|old(node.published)|..], c, fleets[f][i])
              == if c == client then FallenOn(groups, |fleets[f]|, i) else []
  {
    hide PayloadsTo, FallenOn;
    var i := 0;
    while i < |groups|
      invariant 0 <= i <= |groups| && node.Valid() && node.starts == old(node.starts)
      invariant node.published == old(node.published) + CopiesOfAll(fleets, client, groups[..i])
    {
      assert groups[..i + 1][..i] == groups[..i];
      hide Tallied;
      FanOut(node, fleets, client, groups[i]);
      i := i + 1;
    }
    assert groups[..i] == groups;
    QueuesGetTheirGroups(node, fleets, client, groups);
    assert node.published[|old(node.published)|..] == CopiesOfAll(fleets, client, groups);
  }

  lemma QueuesGetTheirGroups(node: StatelessNode, fleets: seq<Fleet>, client: ClientId, groups: seq<Group>)
    requires node.Valid() && node.externalTxs == Flatten(fleets)
    ensures forall f: nat, i: nat, c :: f < |fleets| && i < |fleets[f]| ==>
              PayloadsTo(CopiesOfAll(fleets, client, groups), c, fleets[f][i])
              == if c == client then FallenOn(groups, |fleets[f]|, i) else []
  {
    hide PayloadsTo, FallenOn, CopiesOfAll, Tallied;
    forall f: nat, i: nat, c | f < |fleets| && i < |fleets[f]|
      ensures PayloadsTo(CopiesOfAll(fleets, client, groups), c, fleets[f][i])
              == if c == client then FallenOn(groups, |fleets[f]|, i) else []
    {
      QueueGetsItsGroups(fleets, client, groups, c, f, i);
    }
  }

  /** The loop over the fleets, with the flat index of each fleet's first shard. */
  method FanOut(node: StatelessNode, fleets: seq<Fleet>, client: ClientId, g: Group)
    requires node.Valid() && node.externalTxs == Flatten(fleets)
    modifies node, node.sent
    ensures node.Valid() && node.starts == old(node.starts)
    ensures node.published == old(node.published) + CopiesOfGroup(fleets, client, g)
  {
    var base := 0;
    var f := 0;
    ghost var copies := CopiesOfGroup(fleets, client, g);
    hide Tallied, Distinct, Flatten, Base;
    NoBase(fleets);
    while f < |fleets|
      invariant 0 <= f <= |fleets| && node.Valid() && node.starts == old(node.starts) && base == Base(fleets, f)
      invariant node.published == old(node.published) + copies[..f]
    {
      var fleet := fleets[f];
      var shard := g.affinity % |fleet|;
      FlatIndex(fleets, f, shard);
      node.Send(client, base + shard, fleet[shard], g.payload);
      assert copies[..f + 1] == copies[..f] + [copies[f]];
      base := base + |fleet|;
      f := f + 1;
    }
    assert copies[..f] == copies;
  }

  // ---- The broadcast filter ----------------------------------------------------------------------------

  /** A single queue is a fleet of one. */
  function Single(txs: seq<Tx>): (fleets: seq<Fleet>)
    ensures |fleets| == |txs| && forall i :: 0 <= i < |txs| ==> fleets[i] == [txs[i]]
  {
    seq(|txs|, i requires 0 <= i < |txs| => [txs[i]])
  }

  lemma {:induction false} FlattenSingle(txs: seq<Tx>)
    ensures Flatten(Single(txs)) == txs
  {
    if txs != [] {
      FlattenSingle(txs[1..]);
      assert Single(txs)[1..] == Single(txs[1..]);
    }
  }

  /** What one input sends: a copy to every broadcast queue and one to its own shard of every sharded
      route; `filtered` gives each route's filtered payload. */
  ghost function FilteredCopies(routes: seq<Fleet>, m: Message, filtered: seq<int>): (copies: seq<Published>)
    requires |filtered| == |routes|
    ensures |copies| == |routes|
  {
    CopiesOf(routes, m.client, IdKey(m.id), filtered)
  }

  method FilterOnData(node: StatelessNode, broadcast: seq<Tx>, sharded: seq<Fleet>, m: Message, filtered: seq<int>)
    requires node.Valid() && node.externalTxs == broadcast + Flatten(sharded)
    requires |filtered| == |broadcast| + |sharded|
    modifies node, node.sent
    ensures node.Valid() && node.starts == old(node.starts)
    ensures node.published == old(node.published) + FilteredCopies(Single(broadcast) + sharded, m, filtered)
    ensures |node.published| == |old(node.published)| + |broadcast| + |sharded|
    ensures forall r :: 0 <= r < |broadcast| ==>
              node.published[|old(node.published)| + r] == Published(m.client, broadcast[r], filtered[r])
    ensures forall r :: 0 <= r < |sharded| ==>
              var i := (m.id.producer.name % 0x1_0000_0000 + m.id.seqNo) % |sharded[r]|;
              node.published[|old(node.published)| + |broadcast| + r]
              == Published(m.client, sharded[r][i], filtered[|broadcast| + r])
  {
    hide Tallied, Distinct, FilteredCopies, Flatten, CopiesOf;
    ghost var routes := Single(broadcast) + sharded;
    ghost var copies := FilteredCopies(routes, m, filtered);
    FlattenSingle(broadcast);
    FlattenConcat<Tx>(Single(broadcast), sharded);
    assert copies == copies[..|broadcast|] + copies[|broadcast|..];
    var shard := SendToBroadcast(node, broadcast, m, filtered, routes);
    SendToSharded(node, |broadcast|, shard, sharded, m, filtered, routes);
    FilteredCopiesAre(broadcast, sharded, m, filtered);
  }

  lemma FilteredCopiesAre(broadcast: seq<Tx>, sharded: seq<Fleet>, m: Message, filtered: seq<int>)
    requires |filtered| == |broadcast| + |sharded|
    ensures var copies := FilteredCopies(Single(broadcast) + sharded, m, filtered);
            && (forall r :: 0 <= r < |broadcast| ==> copies[r] == Published(m.client, broadcast[r], filtered[r]))
            && (forall r :: 0 <= r < |sharded| ==>
                  var i := (m.id.producer.name % 0x1_0000_0000 + m.id.seqNo) % |sharded[r]|;
                  copies[|broadcast| + r] == Published(m.client, sharded[r][i], filtered[|broadcast| + r]))
  {
    hide CopiesOf, Single;
    var routes, key := Single(broadcast) + sharded, IdKey(m.id);
    var copies := FilteredCopies(routes, m, filtered);
    forall r | 0 <= r < |broadcast| ensures copies[r] == Published(m.client, broadcast[r], filtered[r]) {
      CopyAt(routes, m.client, key, filtered, r);
      OnlyShard(key, broadcast[r]);
      assert routes[r] == [broadcast[r]];
    }
    forall r | 0 <= r < |sharded|
      ensures copies[|broadcast| + r]
              == Published(m.client, sharded[r][key % |sharded[r]|], filtered[|broadcast| + r])
    {
      CopyAt(routes, m.client, key, filtered, |broadcast| + r);
      assert routes[|broadcast| + r] == sharded[r];
    }
  }

  lemma OnlyShard(key: int, tx: Tx)
    ensures [tx][key % |[tx]|] == tx
  {}

  method SendToBroadcast(node: StatelessNode, broadcast: seq<Tx>, m: Message, filtered: seq<int>,
                         ghost routes: seq<Fleet>) returns (shard: nat)
    requires node.Valid() && node.externalTxs == Flatten(routes)
    requires |broadcast| <= |routes| == |filtered| && forall r :: 0 <= r < |broadcast| ==> routes[r] == [broadcast[r]]
    modifies node, node.sent
    ensures node.Valid() && node.starts == old(node.starts) && shard == Base(routes, |broadcast|)
    ensures node.published == old(node.published) + FilteredCopies(routes, m, filtered)[..|broadcast|]
  {
    shard := 0;
    var r := 0;
    ghost var copies := FilteredCopies(routes, m, filtered);
    hide Tallied, Distinct, Flatten, Base;
    NoBase(routes);
    while r < |broadcast|
      invariant 0 <= r <= |broadcast| && node.Valid() && node.starts == old(node.starts) && shard == Base(routes, r)
      invariant node.published == old(node.published) + copies[..r]
    {
      FlatIndex(routes, r, 0);
      node.Send(m.client, shard, broadcast[r], filtered[r]);
      assert copies[..r + 1] == copies[..r] + [copies[r]];
      shard := shard + 1;
      r := r + 1;
    }
  }

  method SendToSharded(node: StatelessNode, first: nat, shard0: nat, sharded: seq<Fleet>, m: Message,
                       filtered: seq<int>, ghost routes: seq<Fleet>)
    requires node.Valid() && node.externalTxs == Flatten(routes)
    requires |routes| == |filtered| == first + |sharded| && routes[first..] == sharded && shard0 == Base(routes, first)
    modifies node, node.sent
    ensures node.Valid() && node.starts == old(node.starts)
    ensures node.published == old(node.published) + FilteredCopies(routes, m, filtered)[first..]
  {
    var shard := shard0;
    var r := 0;
    ghost var copies := FilteredCopies(routes, m, filtered)[first..];
    hide Tallied, Distinct, Flatten, Base;
    NoBase(routes);
    while r < |sharded|
      invariant 0 <= r <= |sharded| && node.Valid() && node.starts == old(node.starts)
                && shard == Base(routes, first + r)
      invariant node.published == old(node.published) + copies[..r]
    {
      var shards := sharded[r];
      assert shards == routes[first + r];
      var i := ShardOf(m.id, |shards|);
      FlatIndex(routes, first + r, i);
      node.Send(m.client, shard + i, shards[i], filtered[first + r]);
      assert copies[..r + 1] == copies[..r] + [copies[r]];
      shard := shard + |shards|;
      r := r + 1;
    }
    assert copies[..r] == copies;
  }

  // ---- Whole runs, over several clients ------------------------------------------------------------------

  /** What an input does: copies published for some keys, or the counts given up. */
  datatype Event = Fan(client: ClientId, keys: seq<int>, copies: seq<Published>) | Reset(client: ClientId)

  /** Everything published. */
  ghost function LogOf(events: seq<Event>): seq<Published> {
    if events == [] then []
    else LogOf(events[..|events| - 1]) + (if events[|events| - 1].Fan? then events[|events| - 1].copies else [])
  }

  /** Where each client's counts were last given up. */
  ghost function StartsOf(events: seq<Event>): map<ClientId, nat> {
    if events == [] then map[]
    else
      var before, e := events[..|events| - 1], events[|events| - 1];
      if e.Fan? then StartsOf(before) else StartsOf(before)[e.client := |LogOf(before)|]
  }

  /** What was published for a client since its counts were last given up. */
  ghost function SentSince(events: seq<Event>, c: ClientId): seq<Published> {
    Since(LogOf(events), StartsOf(events), c)
  }

  lemma LogSnoc(events: seq<Event>, e: Event)
    ensures LogOf(events + [e]) == LogOf(events) + (if e.Fan? then e.copies else [])
    ensures StartsOf(events + [e]) == if e.Fan? then StartsOf(events) else StartsOf(events)[e.client := |LogOf(events)|]
  {
    assert (events + [e])[..|events|] == events;
  }

  ghost function FallsOn(n: nat, i: nat): int -> nat
    requires n > 0
  {
    (key: int) => if key % n == i then 1 else 0
  }

  /** How many keys of a client fell on shard i of n since its counts were last given up. */
  ghost function Landed(events: seq<Event>, c: ClientId, n: nat, i: nat): nat
    requires n > 0
  {
    if events == [] then 0
    else
      var before, e := Landed(events[..|events| - 1], c, n, i), events[|events| - 1];
      if e.client != c then before
      else match e
        case Fan(_, keys, _) => before + SumOf(FallsOn(n, i), keys)
        case Reset(_) => 0
  }

  lemma LandedSnoc(events: seq<Event>, e: Event, c: ClientId, n: nat, i: nat)
    requires n > 0
    ensures Landed(events + [e], c, n, i) ==
            if e.client != c then Landed(events, c, n, i) else if e.Reset? then 0
              else Landed(events, c, n, i) + SumOf(FallsOn(n, i), e.keys)
  {
    assert (events + [e])[..|events|] == events;
  }

  /** What a queue got from a client since its counts were last given up is what fell on it. */
  ghost predicate InStep(fleets: seq<Fleet>, events: seq<Event>, log: seq<Published>, starts: map<ClientId, nat>) {
    && log == LogOf(events) && starts == StartsOf(events)
    && (forall c :: NumberAt(starts, c) <= |log|)
    && (forall c, f, i :: 0 <= f < |fleets| && 0 <= i < |fleets[f]| ==>
          PublishedOn(Since(log, starts, c), c, fleets[f][i]) == Landed(events, c, |fleets[f]|, i))
  }

  lemma StartsInStep(fleets: seq<Fleet>)
    ensures InStep(fleets, [], [], map[])
  {}

  lemma FanInStep(fleets: seq<Fleet>, events: seq<Event>, log: seq<Published>, starts: map<ClientId, nat>, e: Event,
                  more: seq<Published>)
    requires InStep(fleets, events, log, starts) && e.Fan? && e.copies == more
    requires forall c, f, i :: 0 <= f < |fleets| && 0 <= i < |fleets[f]| ==>
               PublishedOn(more, c, fleets[f][i]) == if c == e.client then SumOf(FallsOn(|fleets[f]|, i), e.keys) else 0
    ensures InStep(fleets, events + [e], log + more, starts)
  {
    hide Since, PublishedOn, Landed, NumberAt, FallsOn, LogOf, StartsOf;
    LogSnoc(events, e);
    forall c, f, i | 0 <= f < |fleets| && 0 <= i < |fleets[f]|
      ensures PublishedOn(Since(log + more, starts, c), c, fleets[f][i]) == Landed(events + [e], c, |fleets[f]|, i)
    {
      SinceConcat(log, more, starts, c, fleets[f][i]);
      LandedSnoc(events, e, c, |fleets[f]|, i);
    }
  }

  lemma ResetInStep(fleets: seq<Fleet>, events: seq<Event>, log: seq<Published>, starts: map<ClientId, nat>,
                    client: ClientId)
    requires InStep(fleets, events, log, starts)
    ensures InStep(fleets, events + [Reset(client)], log, starts[client := |log|])
  {
    hide Since, Landed, NumberAt, PublishedOn, LogOf, StartsOf;
    NothingPublished();
    LogSnoc(events, Reset(client));
    var starts2 := starts[client := |log|];
    forall c
      ensures NumberAt(starts2, c) <= |log|
      ensures Since(log, starts2, c) == if c == client then [] else Since(log, starts, c)
    {
      SinceReset(log, starts, client, c);
    }
    forall c, f, i | 0 <= f < |fleets| && 0 <= i < |fleets[f]|
      ensures PublishedOn(Since(log, starts2, c), c, fleets[f][i])
              == Landed(events + [Reset(client)], c, |fleets[f]|, i)
    {
      LandedSnoc(events, Reset(client), c, |fleets[f]|, i);
    }
  }

  lemma AllTaken(fleets: seq<Fleet>, events: seq<Event>, k: nat, log: seq<Published>, starts: map<ClientId, nat>)
    requires k == |events| && InStep(fleets, events[..k], log, starts)
    ensures log == LogOf(events)
  {
    assert events[..k] == events;
  }

  /** A report is exact: under the flat index of every shard of every fleet is the number of messages of the
      client published on that queue since its counts were last given up, which is the number of its keys
      that fell on that shard. */
  ghost predicate Exact(fleets: seq<Fleet>, events: seq<Event>, client: ClientId, report: Counts) {
    forall f, i :: 0 <= f < |fleets| && 0 <= i < |fleets[f]| ==>
      NumberAt(report, Base(fleets, f) + i) == PublishedOn(SentSince(events, client), client, fleets[f][i])
                                            == Landed(events, client, |fleets[f]|, i)
  }

  method ReportExactly(node: StatelessNode, ghost fleets: seq<Fleet>, ghost events: seq<Event>, client: ClientId)
    returns (report: Counts)
    requires node.Valid() && node.externalTxs == Flatten(fleets) && InStep(fleets, events, node.published, node.starts)
    modifies node, node.sent
    ensures node.Valid() && InStep(fleets, events + [Reset(client)], node.published, node.starts)
    ensures Exact(fleets, events, client, report)
  {
    ghost var log, starts := node.published, node.starts;
    hide Landed, Since, PublishedOn, Tallied, LogOf, StartsOf;
    report := node.Report(client);
    ResetInStep(fleets, events, log, starts, client);
    forall f, i | 0 <= f < |fleets| && 0 <= i < |fleets[f]|
      ensures NumberAt(report, Base(fleets, f) + i) == PublishedOn(SentSince(events, client), client, fleets[f][i])
                                                    == Landed(events, client, |fleets[f]|, i)
    {
      FlatIndex(fleets, f, i);
    }
  }

  method DiscardExactly(node: StatelessNode, ghost fleets: seq<Fleet>, ghost events: seq<Event>, client: ClientId)
    requires node.Valid() && InStep(fleets, events, node.published, node.starts)
    modifies node, node.sent
    ensures node.Valid() && InStep(fleets, events + [Reset(client)], node.published, node.starts)
  {
    hide *;
    ResetInStep(fleets, events, node.published, node.starts, client);
    node.Discard(client);
  }

  // ---- Runs of the group-by

  datatype GroupInput = Grouped(client: ClientId, groups: seq<Group>) | Completed(client: ClientId)
    | Aborted(client: ClientId)

  function Affinities(groups: seq<Group>): (keys: seq<int>)
    ensures |keys| == |groups|
  {
    seq(|groups|, i requires 0 <= i < |groups| => groups[i].affinity)
  }

  ghost function GroupEvent(fleets: seq<Fleet>, input: GroupInput): Event {
    match input
    case Grouped(c, groups) => Fan(c, Affinities(groups), CopiesOfAll(fleets, c, groups))
    case Completed(c) => Reset(c)
    case Aborted(c) => Reset(c)
  }

  ghost function GroupEvents(fleets: seq<Fleet>, inputs: seq<GroupInput>): (events: seq<Event>)
    ensures |events| == |inputs|
  {
    seq(|inputs|, k requires 0 <= k < |inputs| => GroupEvent(fleets, inputs[k]))
  }

  lemma {:induction false} GroupsLand(fleets: seq<Fleet>, client: ClientId, groups: seq<Group>, c: ClientId, f: nat,
                                      i: nat)
    requires Distinct(Flatten(fleets)) && f < |fleets| && i < |fleets[f]|
    ensures PublishedOn(CopiesOfAll(fleets, client, groups), c, fleets[f][i]) ==
            if c == client then SumOf(FallsOn(|fleets[f]|, i), Affinities(groups)) else 0
  {
    hide Distinct, Flatten, FallsOn, CopiesOf;
    if groups != [] {
      var n := |groups| - 1;
      var front, last := CopiesOfAll(fleets, client, groups[..n]), CopiesOfGroup(fleets, client, groups[n]);
      GroupsLand(fleets, client, groups[..n], c, f, i);
      SumOfConcat(To(c, fleets[f][i]), front, last);
      OneCopyPerFleet(fleets, client, groups[n].affinity, seq(|fleets|, _ => groups[n].payload), c, f, i);
      assert Affinities(groups) == Affinities(groups[..n]) + [groups[n].affinity];
      SumOfConcat(FallsOn(|fleets[f]|, i), Affinities(groups[..n]), [groups[n].affinity]);
      KeyFalls(groups[n].affinity, |fleets[f]|, i);
    }
  }

  lemma KeyFalls(key: int, n: nat, i: nat)
    requires n > 0
    ensures SumOf(FallsOn(n, i), [key]) == if key % n == i then 1 else 0
  {
    SumOfOne(FallsOn(n, i), key);
  }

  method GroupStep(node: StatelessNode, fleets: seq<Fleet>, ghost events: seq<Event>, input: GroupInput)
    returns (report: Option<Counts>)
    requires node.Valid() && node.externalTxs == Flatten(fleets) && InStep(fleets, events, node.published, node.starts)
    modifies node, node.sent
    ensures node.Valid() && InStep(fleets, events + [GroupEvent(fleets, input)], node.published, node.starts)
    ensures report.Some? <==> input.Completed?
    ensures report.Some? ==> Exact(fleets, events, input.client, report.value)
  {
    hide InStep, Exact, Tallied, Distinct, Flatten, Affinities, CopiesOfAll, FallsOn, PublishedOn;
    match input
    case Grouped(client, groups) =>
      ghost var copies := CopiesOfAll(fleets, client, groups);
      forall c, f, i | 0 <= f < |fleets| && 0 <= i < |fleets[f]|
        ensures PublishedOn(copies, c, fleets[f][i])
                == if c == client then SumOf(FallsOn(|fleets[f]|, i), Affinities(groups)) else 0
      {
        GroupsLand(fleets, client, groups, c, f, i);
      }
      FanInStep(fleets, events, node.published, node.starts, Fan(client, Affinities(groups), copies), copies);
      GroupByOnData(node, fleets, client, groups);
      report := None;
    case Completed(client) =>
      var counts := ReportExactly(node, fleets, events, client);
      report := Some(counts);
    case Aborted(client) =>
      DiscardExactly(node, fleets, events, client);
      report := None;
  }

  /** Over any inputs of any clients, every report is exact. */
  method RunGroupBy(node: StatelessNode, fleets: seq<Fleet>, inputs: seq<GroupInput>)
    returns (reports: seq<Option<Counts>>)
    requires node.Valid() && node.externalTxs == Flatten(fleets) && node.published == [] && node.starts == map[]
    modifies node, node.sent
    ensures |reports| == |inputs|
    ensures forall k :: 0 <= k < |inputs| ==> (reports[k].Some? <==> inputs[k].Completed?)
    ensures node.published == LogOf(GroupEvents(fleets, inputs))
    ensures forall k :: 0 <= k < |inputs| && reports[k].Some? ==>
              Exact(fleets, GroupEvents(fleets, inputs)[..k], inputs[k].client, reports[k].value)
  {
    hide LogOf, StartsOf, InStep, Exact, Flatten, GroupEvent, StatelessNode.Valid;
    reports := [];
    StartsInStep(fleets);
    ghost var events := GroupEvents(fleets, inputs);
    var k := 0;
    while k < |inputs|
      invariant 0 <= k <= |inputs| == |events| && |reports| == k
      invariant node.Valid() && InStep(fleets, events[..k], node.published, node.starts)
      invariant forall j :: 0 <= j < k ==> (reports[j].Some? <==> inputs[j].Completed?)
      invariant forall j ::
                  0 <= j < k && reports[j].Some? ==> Exact(fleets, events[..j], inputs[j].client, reports[j].value)
    {
      var report := GroupStep(node, fleets, events[..k], inputs[k]);
      assert events[..k + 1] == events[..k] + [GroupEvent(fleets, inputs[k])];
      reports := reports + [report];
      k := k + 1;
    }
    AllTaken(fleets, events, k, node.published, node.starts);
  }

  // ---- Runs of the filter

  datatype FilterInput = Filtered(message: Message, payloads: seq<int>) | Completed(id: ClientId)
    | Aborted(id: ClientId) {
    function Client(): ClientId {
      if Filtered? then message.client else id
    }
  }

  ghost function FilterEvent(routes: seq<Fleet>, input: FilterInput): Event
    requires input.Filtered? ==> |input.payloads| == |routes|
  {
    match input
    case Filtered(m, filtered) => Fan(m.client, [IdKey(m.id)], FilteredCopies(routes, m, filtered))
    case Completed(c) => Reset(c)
    case Aborted(c) => Reset(c)
  }

  ghost function FilterEvents(routes: seq<Fleet>, inputs: seq<FilterInput>): (events: seq<Event>)
    requires forall k :: 0 <= k < |inputs| && inputs[k].Filtered? ==> |inputs[k].payloads| == |routes|
    ensures |events| == |inputs|
  {
    seq(|inputs|, k requires 0 <= k < |inputs| => FilterEvent(routes, inputs[k]))
  }

  lemma FilteredLands(routes: seq<Fleet>, m: Message, filtered: seq<int>, c: ClientId, f: nat, i: nat)
    requires Distinct(Flatten(routes)) && f < |routes| == |filtered| && i < |routes[f]|
    ensures PublishedOn(FilteredCopies(routes, m, filtered), c, routes[f][i]) ==
            if c == m.client then SumOf(FallsOn(|routes[f]|, i), [IdKey(m.id)]) else 0
  {
    hide Distinct, Flatten, CopiesOf, PublishedOn;
    OneCopyPerFleet(routes, m.client, IdKey(m.id), filtered, c, f, i);
    KeyFalls(IdKey(m.id), |routes[f]|, i);
  }

  method FilterStep(node: StatelessNode, broadcast: seq<Tx>, sharded: seq<Fleet>, ghost events: seq<Event>,
                    input: FilterInput) returns (report: Option<Counts>)
    requires node.Valid() && node.externalTxs == Flatten(Single(broadcast) + sharded) == broadcast + Flatten(sharded)
    requires InStep(Single(broadcast) + sharded, events, node.published, node.starts)
    requires input.Filtered? ==> |input.payloads| == |broadcast| + |sharded|
    modifies node, node.sent
    ensures node.Valid()
            && InStep(Single(broadcast) + sharded, events + [FilterEvent(Single(broadcast) + sharded, input)],
                      node.published, node.starts)
    ensures report.Some? <==> input.Completed?
    ensures report.Some? ==> Exact(Single(broadcast) + sharded, events, input.Client(), report.value)
  {
    hide InStep, Exact, Tallied, Distinct, Flatten, FilteredCopies, FallsOn, PublishedOn;
    ghost var routes := Single(broadcast) + sharded;
    match input
    case Filtered(m, filtered) =>
      ghost var copies := FilteredCopies(routes, m, filtered);
      forall c, f, i | 0 <= f < |routes| && 0 <= i < |routes[f]|
        ensures PublishedOn(copies, c, routes[f][i])
                == if c == m.client then SumOf(FallsOn(|routes[f]|, i), [IdKey(m.id)]) else 0
      {
        FilteredLands(routes, m, filtered, c, f, i);
      }
      FanInStep(routes, events, node.published, node.starts, Fan(m.client, [IdKey(m.id)], copies), copies);
      FilterOnData(node, broadcast, sharded, m, filtered);
      report := None;
    case Completed(client) =>
      var counts := ReportExactly(node, routes, events, client);
      report := Some(counts);
    case Aborted(client) =>
      DiscardExactly(node, routes, events, client);
      report := None;
  }

  /** Over any inputs of any clients, every report is exact; a broadcast queue is a fleet of one. */
  method RunFilter(node: StatelessNode, broadcast: seq<Tx>, sharded: seq<Fleet>, inputs: seq<FilterInput>)
    returns (reports: seq<Option<Counts>>)
    requires node.Valid() && node.externalTxs == broadcast + Flatten(sharded) && node.published == []
             && node.starts == map[]
    requires forall k :: 0 <= k < |inputs| && inputs[k].Filtered? ==> |inputs[k].payloads| == |broadcast| + |sharded|
    modifies node, node.sent
    ensures |reports| == |inputs|
    ensures forall k :: 0 <= k < |inputs| ==> (reports[k].Some? <==> inputs[k].Completed?)
    ensures node.published == LogOf(FilterEvents(Single(broadcast) + sharded, inputs))
    ensures forall k :: 0 <= k < |inputs| && reports[k].Some? ==>
              Exact(Single(broadcast) + sharded, FilterEvents(Single(broadcast) + sharded, inputs)[..k],
                    inputs[k].Client(),
                    reports[k].value)
  {
    hide LogOf, StartsOf, InStep, Exact, FilterEvent, StatelessNode.Valid;
    reports := [];
    ghost var routes := Single(broadcast) + sharded;
    StartsInStep(routes);
    FlattenSingle(broadcast);
    FlattenConcat<Tx>(Single(broadcast), sharded);
    ghost var events := FilterEvents(routes, inputs);
    var k := 0;
    while k < |inputs|
      invariant 0 <= k <= |inputs| == |events| && |reports| == k
      invariant node.Valid() && InStep(routes, events[..k], node.published, node.starts)
      invariant forall j :: 0 <= j < k ==> (reports[j].Some? <==> inputs[j].Completed?)
      invariant forall j ::
                  0 <= j < k && reports[j].Some? ==> Exact(routes, events[..j], inputs[j].Client(), reports[j].value)
    {
      var report := FilterStep(node, broadcast, sharded, events[..k], inputs[k]);
      assert events[..k + 1] == events[..k] + [FilterEvent(routes, inputs[k])];
      reports := reports + [report];
      k := k + 1;
    }
    AllTaken(routes, events, k, node.published, node.starts);
  }
}

/** RingCompletion: per-client end-of-stream completion over a ring of peers. The functions say what
    each event does to one peer's state and which actions it asks for; the class does the same in
    place. */
module RingCompletion {
  import opened Common

  type Peer = int

  /** A downstream queue, by its index. */
  type Shard = int

  datatype Phase = Processing | Emitted | Done

  datatype Client = Client(expected: int, received: nat, sent: Counts, phase: Phase)

  const NEW_CLIENT := Client(-1, 0, map[], Processing)

  /** Circulates the ring collecting each peer's per-shard sent counts. */
  datatype Token = Token(client: ClientId, origin: Peer, sentBy: map<Peer, Counts>)

  datatype Action =
    | Emit(client: ClientId)
    | Forward(token: Token)
    | DownstreamEof(client: ClientId, expectedPerShard: Counts)

  /** One peer's completion state; it is also what a snapshot holds. */
  datatype State = State(clients: map<ClientId, Client>, aborted: set<ClientId>) {
    function At(c: ClientId): Client {
      if c in clients then clients[c] else NEW_CLIENT
    }

    function Put(c: ClientId, client: Client): State {
      this.(clients := clients[c := client])
    }

    /** The client's input has fully arrived and its results have not been emitted. */
    predicate Complete(c: ClientId) {
      At(c).phase == Processing && At(c).expected >= 0 && At(c).received >= At(c).expected
    }
  }

  /** A peer's place in the ring. */
  datatype Place = Place(node: Peer, size: nat, leader: Peer)

  datatype Outcome = Outcome(state: State, actions: seq<Action>)

  // ---- Sums over the peers -----------------------------------------------------------------------

  ghost function CountFrom(sentBy: map<Peer, Counts>, shard: Shard): Peer -> nat {
    p => if p in sentBy then NumberAt(sentBy[p], shard) else 0
  }

  /** What all the peers of a slot map sent to one shard. */
  ghost function TotalSent(sentBy: map<Peer, Counts>, shard: Shard): nat {
    SumOver(CountFrom(sentBy, shard), sentBy.Keys)
  }

  ghost function ShardsOf(sentBy: map<Peer, Counts>): set<Shard> {
    set p, s | p in sentBy && s in sentBy[p] :: s
  }

  ghost function Totals(sentBy: map<Peer, Counts>): Counts {
    map s | s in ShardsOf(sentBy) :: TotalSent(sentBy, s)
  }

  lemma CountInTotals(sentBy: map<Peer, Counts>, shard: Shard)
    ensures NumberAt(Totals(sentBy), shard) == TotalSent(sentBy, shard)
  {
    if shard !in Totals(sentBy) {
      SumOverZero(CountFrom(sentBy, shard), sentBy.Keys);
    }
  }

  lemma OneMorePeer(sentBy: map<Peer, Counts>, done: set<Peer>, p: Peer, shard: Shard)
    requires p in sentBy && p !in done
    ensures SumOver(CountFrom(sentBy, shard), done + {p})
         == SumOver(CountFrom(sentBy, shard), done) + NumberAt(sentBy[p], shard)
  {
    SumOverRemove(CountFrom(sentBy, shard), done + {p}, p);
    assert done + {p} - {p} == done;
  }

  lemma TotalsAre(sentBy: map<Peer, Counts>, perShard: Counts)
    requires forall s :: s in perShard <==> exists p :: p in sentBy && s in sentBy[p]
    requires forall s :: NumberAt(perShard, s) == TotalSent(sentBy, s)
    ensures perShard == Totals(sentBy)
  {
    hide TotalSent;
    forall s ensures s in perShard.Keys <==> s in ShardsOf(sentBy) {}
    assert perShard.Keys == ShardsOf(sentBy);
    forall s | s in perShard ensures perShard[s] == TotalSent(sentBy, s) {
      assert NumberAt(perShard, s) == perShard[s];
    }
    hide ShardsOf;
    assert Totals(sentBy).Keys == ShardsOf(sentBy);
  }

  // ---- What each event does ------------------------------------------------------------------------

  function MaybeLocalComplete(s: State, c: ClientId): Outcome {
    Outcome(s.Put(c, s.At(c)), if s.Complete(c) then [Emit(c)] else [])
  }

  function OnData(s: State, c: ClientId): Outcome {
    if c in s.aborted then Outcome(s, [])
    else MaybeLocalComplete(s.Put(c, s.At(c).(received := s.At(c).received + 1)), c)
  }

  function OnUpstreamEof(s: State, c: ClientId, expected: int): Outcome {
    if c in s.aborted then Outcome(s, [])
    else MaybeLocalComplete(s.Put(c, s.At(c).(expected := expected)), c)
  }

  function Drop(s: State, c: ClientId): State {
    State(s.clients - {c}, s.aborted + {c})
  }

  ghost function Advance(place: Place, s: State, token: Token): Outcome {
    if |token.sentBy| < place.size || token.origin != place.node then Outcome(s, [Forward(token)])
    else if s.At(token.client).phase == Done then Outcome(s.Put(token.client, s.At(token.client)), [])
    else Outcome(s.Put(token.client, s.At(token.client).(phase := Done)),
                 [DownstreamEof(token.client, Totals(token.sentBy))])
  }

  ghost function ReportSent(place: Place, s: State, c: ClientId, sent: Counts): Outcome {
    if s.At(c).phase != Processing then Outcome(s.Put(c, s.At(c)), [])
    else
      var reported := s.Put(c, s.At(c).(sent := sent, phase := Emitted));
      if place.node != place.leader then Outcome(reported, [])
      else Advance(place, reported, Token(c, place.leader, map[place.node := sent]))
  }

  ghost function OnToken(place: Place, s: State, token: Token): Outcome {
    if token.client in s.aborted then Outcome(s, [])
    else
      var touched := s.Put(token.client, s.At(token.client));
      if s.At(token.client).phase == Processing then Advance(place, touched, token)
      else Advance(place, touched, token.(sentBy := token.sentBy[place.node := s.At(token.client).sent]))
  }

  // ---- The class -------------------------------------------------------------------------------------

  class RingCompletion {
    const place: Place
    var clients: map<ClientId, Client>
    var aborted: set<ClientId>

    function View(): State
      reads this
    {
      State(clients, aborted)
    }

    /** The leader is the smallest id of the ring. */
    constructor (node: Peer, peers: seq<Peer>)
      ensures View() == State(map[], {})
      ensures place.node == node && place.size == |peers| + 1
      ensures IsMinimum({node} + ElementsOf(peers), place.leader)
    {
      var leader := node;
      var i := 0;
      while i < |peers|
        invariant 0 <= i <= |peers|
        invariant IsMinimum({node} + ElementsOf(peers[..i]), leader)
      {
        assert peers[..i + 1] == peers[..i] + [peers[i]];
        assert ElementsOf(peers[..i + 1]) == ElementsOf(peers[..i]) + {peers[i]};
        if peers[i] < leader {
          leader := peers[i];
        }
        i := i + 1;
      }
      assert peers[..i] == peers;
      place := Place(node, |peers| + 1, leader);
      clients, aborted := map[], {};
    }

    /** `_clients.setdefault`. */
    method Touch(c: ClientId) returns (client: Client)
      modifies this
      ensures client == old(View()).At(c) && View() == old(View()).Put(c, client)
      ensures client == if c in old(clients) then old(clients)[c] else Client(-1, 0, map[], Processing)
      ensures clients == old(clients)[c := client] && aborted == old(aborted)
    {
      if c !in clients {
        clients := clients[c := NEW_CLIENT];
      }
      client := clients[c];
    }

    /** Asks for the results when the record is PROCESSING and has received all it expects. */
    method LocalComplete(c: ClientId) returns (actions: seq<Action>)
      modifies this
      ensures Outcome(View(), actions) == MaybeLocalComplete(old(View()), c)
      ensures c in clients && clients[c] == old(View()).At(c)
      ensures Emit(c) in actions <==>
              clients[c].phase == Processing && 0 <= clients[c].expected <= clients[c].received
      ensures forall a :: a in actions ==> a == Emit(c)
    {
      var client := Touch(c);
      if client.phase != Processing || client.expected < 0 || client.received < client.expected {
        return [];
      }
      return [Emit(c)];
    }

    /** One more message received; a tombstoned client changes nothing. */
    method Data(c: ClientId) returns (actions: seq<Action>)
      modifies this
      ensures Outcome(View(), actions) == OnData(old(View()), c)
      ensures c in old(aborted) ==> clients == old(clients) && actions == []
      ensures c !in old(aborted) ==> c in clients
      ensures c !in old(aborted) ==>
                (Emit(c) in actions <==>
                 clients[c].phase == Processing && 0 <= clients[c].expected <= clients[c].received)
      ensures forall a :: a in actions ==> a == Emit(c)
      ensures c !in old(aborted) ==> clients[c].received == old(View()).At(c).received + 1
      ensures c !in old(aborted) ==> clients[c].expected == old(View()).At(c).expected
    {
      if c in aborted {
        return [];
      }
      var client := Touch(c);
      clients := clients[c := client.(received := client.received + 1)];
      actions := LocalComplete(c);
    }

    /** The expected count is known; a tombstoned client changes nothing. */
    method UpstreamEof(c: ClientId, expected: int) returns (actions: seq<Action>)
      modifies this
      ensures Outcome(View(), actions) == OnUpstreamEof(old(View()), c, expected)
      ensures c in old(aborted) ==> clients == old(clients) && actions == []
      ensures c !in old(aborted) ==> c in clients
      ensures c !in old(aborted) ==>
                (Emit(c) in actions <==>
                 clients[c].phase == Processing && 0 <= clients[c].expected <= clients[c].received)
      ensures forall a :: a in actions ==> a == Emit(c)
      ensures c !in old(aborted) ==> clients[c].expected == expected
      ensures c !in old(aborted) ==> clients[c].received == old(View()).At(c).received
      ensures aborted == old(aborted) && forall k ::
                k != c && k in old(clients) ==> k in clients && clients[k] == old(clients)[k]
    {
      if c in aborted {
        return [];
      }
      var client := Touch(c);
      clients := clients[c := client.(expected := expected)];
      actions := LocalComplete(c);
    }

    /** The client's record is gone and its tombstone is there; the others keep their records. */
    method Abandon(c: ClientId)
      modifies this
      ensures View() == Drop(old(View()), c)
      ensures c !in clients && aborted == old(aborted) + {c}
      ensures forall k :: k != c ==> (k in clients <==> k in old(clients))
      ensures forall k :: k in clients ==> clients[k] == old(clients)[k]
    {
      clients := clients - {c};
      aborted := aborted + {c};
    }

    /** After a restart: emit again for every client that is complete, each once. */
    method Recheck() returns (actions: seq<Action>)
      modifies this
      ensures View() == old(View())
      ensures forall a :: a in actions <==> a.Emit? && a.client in clients && View().Complete(a.client)
      ensures forall c :: Emit(c) in actions <==>
                c in clients && clients[c].phase == Processing && 0 <= clients[c].expected <= clients[c].received
      ensures forall i, j :: 0 <= i < j < |actions| ==> actions[i] != actions[j]
    {
      actions := [];
      var todo := clients.Keys;
      while todo != {}
        invariant todo <= clients.Keys && View() == old(View())
        invariant forall a ::
                    a in actions <==> a.Emit? && a.client in clients && a.client !in todo && View().Complete(a.client)
        invariant forall i, j :: 0 <= i < j < |actions| ==> actions[i] != actions[j]
        decreases |todo|
      {
        var c := Choose(todo);
        var more := LocalComplete(c);
        actions := actions + more;
        todo := todo - {c};
      }
    }

    method Report(c: ClientId, sent: Counts) returns (actions: seq<Action>)
      modifies this
      ensures Outcome(View(), actions) == ReportSent(place, old(View()), c, sent)
      ensures c in clients && clients[c].phase != Processing && aborted == old(aborted)
      ensures old(View()).At(c).phase == Processing ==> clients[c].sent == sent
      ensures old(View()).At(c).phase != Processing ==> clients[c] == old(View()).At(c) && actions == []
      ensures old(View()).At(c).phase == Processing && place.node == place.leader && place.size > 1 ==>
                actions == [Forward(Token(c, place.leader, map[place.node := sent]))]
      ensures place.node != place.leader ==> actions == []
    {
      var client := Touch(c);
      if client.phase != Processing {
        return [];
      }
      clients := clients[c := client.(sent := sent, phase := Emitted)];
      if place.node != place.leader {
        return [];
      }
      actions := Step(Token(c, place.leader, map[place.node := sent]));
    }

    method Receive(token: Token) returns (actions: seq<Action>)
      modifies this
      ensures Outcome(View(), actions) == OnToken(place, old(View()), token)
      ensures token.client in old(aborted) ==> actions == [] && clients == old(clients)
      ensures token.client !in old(aborted) && token.origin != place.node ==> |actions| == 1 && actions[0].Forward?
      ensures forall a :: a in actions && a.Forward? ==>
                a.token == (if old(View()).At(token.client).phase == Processing then token
                            else token.(sentBy := token.sentBy[place.node := old(View()).At(token.client).sent]))
    {
      if token.client in aborted {
        return [];
      }
      var client := Touch(token.client);
      var sentBy := token.sentBy;
      if client.phase != Processing {
        sentBy := sentBy[place.node := client.sent];
      }
      actions := Step(token.(sentBy := sentBy));
    }

    method Step(token: Token) returns (actions: seq<Action>)
      modifies this
      ensures Outcome(View(), actions) == Advance(place, old(View()), token)
      ensures |token.sentBy| < place.size || token.origin != place.node ==>
                actions == [Forward(token)] && View() == old(View())
      ensures |token.sentBy| >= place.size && token.origin == place.node ==>
                && token.client in clients && clients[token.client].phase == Done
                && if old(View()).At(token.client).phase == Done then actions == []
                   else |actions| == 1 && actions[0].DownstreamEof? && actions[0].client == token.client
    {
      if |token.sentBy| < place.size {
        return [Forward(token)];
      }
      if token.origin != place.node {
        return [Forward(token)];
      }
      var client := Touch(token.client);
      if client.phase == Done {
        return [];
      }
      clients := clients[token.client := client.(phase := Done)];
      var perShard := SumShards(token.sentBy);
      return [DownstreamEof(token.client, perShard)];
    }

    /** The summing loops: over the peers and, for each, over its shards. */
    method SumShards(sentBy: map<Peer, Counts>) returns (perShard: Counts)
      ensures perShard == Totals(sentBy)
    {
      hide CountFrom, SumOver, Totals, NumberAt, TotalSent;
      perShard := map[];
      var todo := sentBy.Keys;
      assert sentBy.Keys - todo == {};
      forall s { NothingCounted(sentBy, s); }
      while todo != {}
        invariant todo <= sentBy.Keys
        invariant forall s :: NumberAt(perShard, s) == SumOver(CountFrom(sentBy, s), sentBy.Keys - todo)
        invariant forall s :: s in perShard <==> exists p :: p in sentBy && p !in todo && s in sentBy[p]
        decreases |todo|
      {
        var p := Choose(todo);
        var before := perShard;
        perShard := AddCounts(perShard, sentBy[p]);
        forall s { OneMorePeer(sentBy, sentBy.Keys - todo, p, s); }
        assert sentBy.Keys - (todo - {p}) == sentBy.Keys - todo + {p};
        todo := todo - {p};
      }
      assert sentBy.Keys - todo == sentBy.Keys;
      forall s { TotalSentIs(sentBy, s); }
      TotalsAre(sentBy, perShard);
    }

    lemma NothingCounted(sentBy: map<Peer, Counts>, s: Shard)
      ensures NumberAt<Shard>(map[], s) == 0 == SumOver(CountFrom(sentBy, s), {})
    {
      SumOverNone(CountFrom(sentBy, s));
    }

    lemma TotalSentIs(sentBy: map<Peer, Counts>, s: Shard)
      ensures TotalSent(sentBy, s) == SumOver(CountFrom(sentBy, s), sentBy.Keys)
    {}

    method AddCounts(counts: Counts, more: Counts) returns (sums: Counts)
      ensures forall s :: s in sums <==> s in counts || s in more
      ensures forall s :: NumberAt(sums, s) == NumberAt(counts, s) + NumberAt(more, s)
    {
      sums := counts;
      var todo := more.Keys;
      while todo != {}
        invariant todo <= more.Keys
        invariant forall s :: s in sums <==> s in counts || (s in more && s !in todo)
        invariant forall s :: NumberAt(sums, s) == NumberAt(counts, s) + (if s in todo then 0 else NumberAt(more, s))
        decreases |todo|
      {
        var s := Choose(todo);
        sums := sums[s := NumberAt(sums, s) + more[s]];
        todo := todo - {s};
      }
    }

    method TakeSnapshot() returns (snapshot: State)
      ensures snapshot == View()
    {
      snapshot := State(clients, aborted);
    }

    method Restore(snapshot: State)
      modifies this
      ensures View() == snapshot
    {
      clients := snapshot.clients;
      aborted := snapshot.aborted;
    }
  }
}

/** The barrier closes from any state of a run. When every peer has emitted a client and the leader has not
    closed it, deliveries of any token of that client, wherever it is, lead to one end-of-stream, and it
    carries what the whole stage sent. */
module BarrierCompletes {
  import opened Common
  import opened RingCompletion
  import opened RingOrder
  import opened Barrier
  import P = BarrierProgress

  // ---- One delivery --------------------------------------------------------------------------------

  /** No node has anything left to do. */
  ghost predicate AtRest(s: Cluster) {
    forall i :: i in s.nodes ==> s.nodes[i].todo == [] && !s.nodes[i].mustSave
  }

  ghost function OnTheWay(token: Option<Token>): set<Token> {
    if token.Some? then {token.value} else {}
  }

  /** A token taken by a peer, with what it asks for done and saved. */
  ghost function Taken(s: Cluster, i: Peer, o: Outcome): Cluster {
    s.(nodes := s.nodes[i := Node(o.state, o.state, [], false)], tokens := s.tokens + OnTheWay(P.Forwarded(o.actions)),
       eofs := s.eofs + P.Closings(o.actions))
  }

  lemma OneAction(place: Place, s: State, t: Token)
    ensures var actions := OnToken(place, s, t).actions;
            actions == [] || (|actions| == 1 && (actions[0].Forward? || actions[0].DownstreamEof?))
  {
    hide Totals;
  }

  /** The steps of one delivery: the arrival, the action and the save. */
  lemma TokenIsTaken(ring: Ring, a: Cluster, s: Cluster, i: Peer, t: Token)
    requires Leads(ring, a, s) && AtRest(s) && i in s.nodes && t in s.tokens
    ensures Leads(ring, a, Taken(s, i, OnToken(ring.PlaceOf(i), s.nodes[i].live, t)))
  {
    hide Leads, OnToken;
    var o := OnToken(ring.PlaceOf(i), s.nodes[i].live, t);
    OneAction(ring.PlaceOf(i), s.nodes[i].live, t);
    LeadsOn(ring, a, s, Arrive(i, TokenArrives(t)));
    var s1 := Next(ring, s, Arrive(i, TokenArrives(t)));
    if o.actions == [] {
      assert Tasks(o.actions) == [];
      LeadsOn(ring, a, s1, Save(i));
      assert Next(ring, s1, Save(i)) == Taken(s, i, o);
    } else {
      ActionIsTaken(ring, a, s, s1, i, o);
    }
  }

  lemma ActionIsTaken(ring: Ring, a: Cluster, s: Cluster, s1: Cluster, i: Peer, o: Outcome)
    requires Leads(ring, a, s1) && AtRest(s) && i in s.nodes
    requires |o.actions| == 1 && !o.actions[0].Emit?
    requires s1 == s.(nodes := s.nodes[i := s.nodes[i].(live := o.state, todo := Tasks(o.actions), mustSave := true)])
    ensures Leads(ring, a, Taken(s, i, o))
  {
    hide Leads;
    assert Tasks(o.actions) == [Do(o.actions[0])];
    LeadsOn(ring, a, s1, Perform(i));
    var s2 := Next(ring, s1, Perform(i));
    assert s2.nodes[i].todo == [];
    LeadsOn(ring, a, s2, Save(i));
    assert Next(ring, s2, Save(i)) == Taken(s, i, o);
  }

  // ---- The token's way around ----------------------------------------------------------------------

  /** The cluster at rest as the stage that its token travels. */
  ghost function StageOf(ring: Ring, s: Cluster, token: Option<Token>, at: Peer): P.Stage {
    P.Stage(ring.peers, ring.leader, map p | p in s.nodes :: s.nodes[p].live, token, at, s.eofs)
  }

  ghost predicate Mirrors(ring: Ring, s: Cluster, st: P.Stage) {
    && P.IsStage(st) && AtRest(s) && s.nodes.Keys == ring.peers
    && st == StageOf(ring, s, st.token, st.at)
    && (st.token.Some? ==> st.token.value in s.tokens)
  }

  lemma DeliveryIsMirrored(ring: Ring, a: Cluster, s: Cluster, st: P.Stage) returns (after: Cluster)
    requires Leads(ring, a, s) && Mirrors(ring, s, st)
    ensures Leads(ring, a, after) && Mirrors(ring, after, P.Deliver(st))
  {
    hide Leads, OnToken, FrontOf;
    if st.token.None? {
      after := s;
    } else {
      var o := OnToken(ring.PlaceOf(st.at), s.nodes[st.at].live, st.token.value);
      TokenIsTaken(ring, a, s, st.at, st.token.value);
      after := Taken(s, st.at, o);
      assert P.Deliver(st).states == StageOf(ring, after, P.Deliver(st).token, P.Deliver(st).at).states;
    }
  }

  lemma {:induction false} TravelIsMirrored(ring: Ring, a: Cluster, st: P.Stage, n: nat) returns (after: Cluster)
    requires Mirrors(ring, a, st)
    ensures Leads(ring, a, after) && Mirrors(ring, after, P.Travel(st, n))
  {
    hide *;
    IsMirrored(ring, a, st);
    P.TravelStep(st, n);
    if n == 0 {
      LeadsNowhere(ring, a);
      after := a;
    } else {
      var before := TravelIsMirrored(ring, a, st, n - 1);
      after := DeliveryIsMirrored(ring, a, before, P.Travel(st, n - 1));
    }
  }

  lemma IsMirrored(ring: Ring, s: Cluster, st: P.Stage)
    requires Mirrors(ring, s, st)
    ensures P.IsStage(st) && st.eofs == s.eofs && st.peers == ring.peers
  {}

  // ---- From any state of a run ---------------------------------------------------------------------

  /** Every peer has emitted the client, none has dropped it, and the leader has not closed it. */
  ghost predicate ReadyToClose(ring: Ring, s: Cluster, c: ClientId) {
    && ring.leader in s.nodes && s.nodes[ring.leader].live.At(c).phase == Emitted
    && forall p :: p in s.nodes ==> s.nodes[p].live.At(c).phase != Processing && c !in s.nodes[p].live.aborted
  }

  /** In such a state of a run every record and every slot of the client's tokens is its peer's report. */
  lemma SlotsAreReports(ring: Ring, s: Cluster, t: Token, at: Peer)
    requires Safe(ring, s) && ReadyToClose(ring, s, t.client) && t in s.tokens && at in ring.peers
    ensures P.IsStage(StageOf(ring, s, Some(t), at)) && t.origin == ring.leader
    ensures P.AllEmitted(StageOf(ring, s, Some(t), at), t.client)
    ensures P.SlotsAreRemembered(StageOf(ring, s, Some(t), at), t)
    ensures forall p :: p in ring.peers ==> s.nodes[p].live.At(t.client).sent == ring.sent(p, t.client)
  {
    var d := s.nodes[ring.leader].durable;
    assert GoodSlots(ring, s.published, d, t);
    assert GoodNode(ring, s.published, d, ring.leader, s.nodes[ring.leader]);
    forall p | p in ring.peers ensures s.nodes[p].live.At(t.client).sent == ring.sent(p, t.client) {
      assert GoodNode(ring, s.published, d, p, s.nodes[p]);
      assert GoodClient(ring, s.published, p, t.client, s.nodes[p].live.At(t.client));
    }
  }

  /** Full slots that are the reports add up to what the stage sent. */
  lemma ReportsAddUp(ring: Ring, c: ClientId, sentBy: map<Peer, Counts>, shard: Shard)
    requires sentBy.Keys == ring.peers && forall p :: p in sentBy ==> sentBy[p] == ring.sent(p, c)
    ensures NumberAt(Totals(sentBy), shard) == StageTotal(ring, c, shard)
  {
    CountInTotals(sentBy, shard);
    var g := (p: Peer) => NumberAt(ring.sent(p, c), shard);
    SumOverSame(CountFrom(sentBy, shard), g, ring.peers);
  }

  /** From any state of any run, at rest and ready to close a client that has a token in flight: wherever the
      token waits, the run goes on to a state in which exactly one end-of-stream more has been sent, that
      of the client with the exact totals of the stage. */
  lemma ClosesFromAnyState(ring: Ring, states: seq<Cluster>, steps: seq<Step>, k: nat, t: Token, at: Peer)
    returns (after: Cluster, eof: Action)
    requires IsRun(ring, states, steps) && k < |states| && t in states[k].tokens && at in ring.peers
    requires AtRest(states[k]) && ReadyToClose(ring, states[k], t.client)
    ensures Leads(ring, states[k], after) && after.eofs == states[k].eofs + [eof]
    ensures eof.DownstreamEof? && eof.client == t.client
    ensures forall shard :: NumberAt(eof.expectedPerShard, shard) == StageTotal(ring, t.client, shard)
  {
    hide *;
    var s := states[k];
    RunIsSafe(ring, states, steps, k);
    SlotsAreReports(ring, s, t, at);
    var st := StageOf(ring, s, Some(t), at);
    StageIs(ring, s, t, at);
    var d, sentBy := P.EndOfStreamIsSent(st);
    after := TravelIsMirrored(ring, s, st, d + 1);
    IsMirrored(ring, after, P.Travel(st, d + 1));
    eof := DownstreamEof(t.client, Totals(sentBy));
    FullIsReports(ring, s, t, at, sentBy);
    forall shard ensures NumberAt(Totals(sentBy), shard) == StageTotal(ring, t.client, shard) {
      ReportsAddUp(ring, t.client, sentBy, shard);
    }
  }

  lemma StageIs(ring: Ring, s: Cluster, t: Token, at: Peer)
    requires Safe(ring, s) && AtRest(s) && t in s.tokens && at in ring.peers && ReadyToClose(ring, s, t.client)
    ensures var st := StageOf(ring, s, Some(t), at);
            && st.token == Some(t) && st.leader == ring.leader && st.eofs == s.eofs && P.IsStage(st)
            && st.states[st.leader].At(t.client).phase == Emitted && Mirrors(ring, s, st)
  {}

  lemma FullIsReports(ring: Ring, s: Cluster, t: Token, at: Peer, sentBy: map<Peer, Counts>)
    requires P.IsStage(StageOf(ring, s, Some(t), at)) && P.IsFull(StageOf(ring, s, Some(t), at), t.client, sentBy)
    requires s.nodes.Keys == ring.peers
    requires forall p :: p in ring.peers ==> s.nodes[p].live.At(t.client).sent == ring.sent(p, t.client)
    ensures sentBy.Keys == ring.peers && forall p :: p in sentBy ==> sentBy[p] == ring.sent(p, t.client)
  {}
}

/** What an abort does over whole runs of the cluster. From the moment a peer takes the abort of a client
    until it crashes it keeps the tombstone, has no record of the client and does nothing for it; once the
    tombstone is saved, no crash takes that back. So every token of the client dies. */
module Tombstones {
  import opened Common
  import opened RingCompletion
  import opened Barrier
  import opened BarrierCompletes
  import P = BarrierProgress

  function ClientOf(action: Action): ClientId {
    match action
    case Emit(c) => c
    case Forward(t) => t.client
    case DownstreamEof(c, _) => c
  }

  ghost predicate Concerns(task: Task, c: ClientId) {
    match task
    case Report(client) => client == c
    case Do(action) => ClientOf(action) == c
  }

  ghost predicate IsOf(input: Input, c: ClientId) {
    match input
    case TokenArrives(t) => t.client == c
    case DataArrives(client) => client == c
    case EofArrives(client, _) => client == c
  }

  /** Forgotten and tombstoned. */
  ghost predicate Buried(s: State, c: ClientId) {
    c in s.aborted && c !in s.clients
  }

  ghost predicate Gone(node: Node, c: ClientId) {
    Buried(node.live, c) && forall t :: t in node.todo ==> !Concerns(t, c)
  }

  /** Between the two states nothing of the client has left a peer. */
  ghost predicate Silent(a: Cluster, b: Cluster, i: Peer, c: ClientId) {
    && (forall t :: t in b.tokens && t.client == c ==> t in a.tokens)
    && (Result(i, c) in b.published ==> Result(i, c) in a.published)
    && a.eofs <= b.eofs && forall e :: e in b.eofs[|a.eofs|..] ==> ClientOf(e) != c
  }

  // ---- One step --------------------------------------------------------------------------------------

  lemma AdvanceElsewhere(place: Place, s: State, t: Token, c: ClientId)
    requires Buried(s, c) && t.client != c
    ensures Buried(Advance(place, s, t).state, c)
    ensures forall a :: a in Advance(place, s, t).actions ==> ClientOf(a) != c
  {
    hide Totals;
  }

  lemma TokenElsewhere(place: Place, s: State, t: Token, c: ClientId)
    requires Buried(s, c)
    ensures Buried(OnToken(place, s, t).state, c)
    ensures forall a :: a in OnToken(place, s, t).actions ==> ClientOf(a) != c
    ensures t.client == c ==> OnToken(place, s, t) == Outcome(s, [])
  {
    if t.client != c && t.client !in s.aborted {
      var touched := s.Put(t.client, s.At(t.client));
      AdvanceElsewhere(place, touched, t, c);
      AdvanceElsewhere(place, touched, t.(sentBy := t.sentBy[place.node := s.At(t.client).sent]), c);
    }
    hide Advance;
  }

  lemma ReportElsewhere(place: Place, s: State, d: ClientId, sent: Counts, c: ClientId)
    requires Buried(s, c) && d != c
    ensures Buried(ReportSent(place, s, d, sent).state, c)
    ensures forall a :: a in ReportSent(place, s, d, sent).actions ==> ClientOf(a) != c
  {
    var reported := s.Put(d, s.At(d).(sent := sent, phase := Emitted));
    AdvanceElsewhere(place, reported, Token(d, place.leader, map[place.node := sent]), c);
    hide Advance;
  }

  /** An input of the client changes nothing and asks for nothing. */
  lemma ReactElsewhere(place: Place, s: State, input: Input, c: ClientId)
    requires Buried(s, c)
    ensures Buried(React(place, s, input).state, c)
    ensures forall a :: a in React(place, s, input).actions ==> ClientOf(a) != c
    ensures IsOf(input, c) ==> React(place, s, input) == Outcome(s, [])
  {
    if input.TokenArrives? {
      TokenElsewhere(place, s, input.token, c);
    }
    hide OnToken;
  }

  lemma TasksElsewhere(actions: seq<Action>, c: ClientId)
    requires forall a :: a in actions ==> ClientOf(a) != c
    ensures forall t :: t in Tasks(actions) ==> !Concerns(t, c)
  {}

  /** The abort itself. */
  lemma AbortBuries(ring: Ring, s: Cluster, i: Peer, c: ClientId)
    requires Enabled(s, Abort(i, c))
    ensures Gone(Next(ring, s, Abort(i, c)).nodes[i], c) && Silent(s, Next(ring, s, Abort(i, c)), i, c)
  {}

  lemma PerformElsewhere(ring: Ring, node: Node, i: Peer, c: ClientId)
    requires Gone(node, c) && node.todo != []
    ensures var e := PerformTask(ring, node, i);
            && Gone(e.node, c) && (forall t :: t in e.tokens ==> t.client != c) && Result(i, c) !in e.published
            && forall a :: a in e.eofs ==> ClientOf(a) != c
  {
    hide ReportSent;
    var task, rest := node.todo[0], node.todo[1..];
    assert !Concerns(task, c) && forall t :: t in rest ==> t in node.todo;
    match task
    case Report(d) =>
      ReportElsewhere(ring.PlaceOf(i), node.live, d, ring.sent(i, d), c);
      TasksElsewhere(ReportSent(ring.PlaceOf(i), node.live, d, ring.sent(i, d)).actions, c);
    case Do(action) =>
  }

  lemma MoveElsewhere(ring: Ring, s: Cluster, step: Step, c: ClientId)
    requires Enabled(s, step) && Gone(s.nodes[step.peer], c)
    requires step.Crash? ==> Buried(s.nodes[step.peer].durable, c)
    ensures Gone(Next(ring, s, step).nodes[step.peer], c) && Silent(s, Next(ring, s, step), step.peer, c)
  {
    hide React, PerformTask;
    var node := s.nodes[step.peer];
    match step
    case Arrive(i, input) =>
      ReactElsewhere(ring.PlaceOf(i), node.live, input, c);
      TasksElsewhere(React(ring.PlaceOf(i), node.live, input).actions, c);
    case Perform(i) =>
      PerformElsewhere(ring, node, i, c);
    case Save(i) =>
    case Crash(i, order) =>
    case Abort(i, d) =>
  }

  lemma OthersLeaveIt(ring: Ring, s: Cluster, step: Step, i: Peer)
    requires Enabled(s, step) && i in s.nodes && step.peer != i
    ensures i in Next(ring, s, step).nodes && Next(ring, s, step).nodes[i] == s.nodes[i]
  {
    hide Moves;
  }

  // ---- Until the peer crashes ------------------------------------------------------------------------

  ghost predicate NoCrash(steps: seq<Step>, from: nat, to: nat, i: Peer)
    requires to <= |steps|
  {
    forall m :: from <= m < to ==> !(steps[m].Crash? && steps[m].peer == i)
  }

  /** After its abort of a client and until it crashes, a peer has the tombstone and no record, no task and
      no action left for the client, and every step of its own sends nothing of it. */
  lemma {:induction false} AbortedStaysSilent(ring: Ring, states: seq<Cluster>, steps: seq<Step>, j: nat, k: nat,
                                              i: Peer, c: ClientId)
    requires IsPath(ring, states, steps) && j < k <= |steps|
    requires steps[j] == Abort(i, c) && NoCrash(steps, j + 1, k, i)
    ensures i in states[k].nodes && Gone(states[k].nodes[i], c)
    ensures c in states[k].nodes[i].live.aborted && c !in states[k].nodes[i].live.clients
    ensures forall m :: j <= m < k && steps[m].peer == i ==> Silent(states[m], states[m + 1], i, c)
  {
    hide Gone, Silent, Next, Enabled;
    assert Enabled(states[k - 1], steps[k - 1]) && states[k - 1 + 1] == Next(ring, states[k - 1], steps[k - 1]);
    StepsAtPeer(states[k - 1], steps[k - 1]);
    if j == k - 1 {
      AbortBuries(ring, states[j], i, c);
      StaysAPeer(ring, states[j], steps[j], i);
    } else {
      AbortedStaysSilent(ring, states, steps, j, k - 1, i, c);
      if steps[k - 1].peer == i {
        MoveElsewhere(ring, states[k - 1], steps[k - 1], c);
        StaysAPeer(ring, states[k - 1], steps[k - 1], i);
      } else {
        OthersLeaveIt(ring, states[k - 1], steps[k - 1], i);
      }
    }
    GoneIs(states[k].nodes[i], c);
  }

  lemma StepsAtPeer(s: Cluster, step: Step)
    requires Enabled(s, step)
    ensures step.peer in s.nodes
  {}

  lemma StaysAPeer(ring: Ring, s: Cluster, step: Step, i: Peer)
    requires Enabled(s, step) && i in s.nodes
    ensures i in Next(ring, s, step).nodes
  {
    hide Moves;
  }

  lemma GoneIs(node: Node, c: ClientId)
    requires Gone(node, c)
    ensures c in node.live.aborted && c !in node.live.clients
  {}

  /** In particular it asks for nothing: any message, end-of-stream or token of the client that arrives then
      leaves the peer's state as it was and nothing to do, so no result is emitted and no token forwarded. */
  lemma AbortedAsksForNothing(ring: Ring, states: seq<Cluster>, steps: seq<Step>, j: nat, k: nat, i: Peer, c: ClientId,
                              input: Input)
    requires IsPath(ring, states, steps) && j < k <= |steps|
    requires steps[j] == Abort(i, c) && NoCrash(steps, j + 1, k, i)
    requires Enabled(states[k], Arrive(i, input)) && IsOf(input, c)
    ensures var after := Next(ring, states[k], Arrive(i, input)).nodes[i];
            after.todo == [] && after.live == states[k].nodes[i].live
  {
    AbortedStaysSilent(ring, states, steps, j, k, i, c);
    ReactElsewhere(ring.PlaceOf(i), states[k].nodes[i].live, input, c);
    assert Tasks([]) == [];
    hide React;
  }

  // ---- For good --------------------------------------------------------------------------------------

  ghost predicate GoneForGood(node: Node, c: ClientId) {
    Gone(node, c) && Buried(node.durable, c)
  }

  lemma StaysGoneForGood(ring: Ring, s: Cluster, step: Step, i: Peer, c: ClientId)
    requires Enabled(s, step) && i in s.nodes && GoneForGood(s.nodes[i], c)
    ensures i in Next(ring, s, step).nodes && GoneForGood(Next(ring, s, step).nodes[i], c)
    ensures step.peer == i ==> Silent(s, Next(ring, s, step), i, c)
  {
    hide Gone, Silent, React, PerformTask;
    if step.peer == i {
      MoveElsewhere(ring, s, step, c);
      StaysBuried(ring, s, step, c);
    } else {
      OthersLeaveIt(ring, s, step, i);
    }
  }

  lemma StaysBuried(ring: Ring, s: Cluster, step: Step, c: ClientId)
    requires Enabled(s, step) && GoneForGood(s.nodes[step.peer], c)
    ensures Buried(Next(ring, s, step).nodes[step.peer].durable, c)
  {
    hide React, ReportSent;
  }

  lemma SaveBuries(ring: Ring, s: Cluster, i: Peer, c: ClientId)
    requires Enabled(s, Save(i)) && Gone(s.nodes[i], c)
    ensures GoneForGood(Next(ring, s, Save(i)).nodes[i], c)
  {}

  /** Once the abort has been saved the same holds for ever, whatever crashes. */
  lemma {:induction false} AbortedForGood(ring: Ring, states: seq<Cluster>, steps: seq<Step>, j: nat, saved: nat,
                                          k: nat,
                                          i: Peer, c: ClientId)
    requires IsPath(ring, states, steps) && j < saved < k <= |steps|
    requires steps[j] == Abort(i, c) && NoCrash(steps, j + 1, saved, i) && steps[saved] == Save(i)
    ensures i in states[k].nodes && GoneForGood(states[k].nodes[i], c)
    ensures c in states[k].nodes[i].live.aborted && c in states[k].nodes[i].durable.aborted
    ensures forall m :: saved <= m < k && steps[m].peer == i ==> Silent(states[m], states[m + 1], i, c)
    decreases k
  {
    hide Gone, Silent, Next, Enabled;
    assert Enabled(states[k - 1], steps[k - 1]) && states[k - 1 + 1] == Next(ring, states[k - 1], steps[k - 1]);
    if k - 1 == saved {
      AbortedStaysSilent(ring, states, steps, j, saved, i, c);
      SaveBuries(ring, states[saved], i, c);
      MoveElsewhere(ring, states[saved], steps[saved], c);
      StaysAPeer(ring, states[saved], steps[saved], i);
    } else {
      AbortedForGood(ring, states, steps, j, saved, k - 1, i, c);
      StaysGoneForGood(ring, states[k - 1], steps[k - 1], i, c);
    }
    GoneIs(states[k].nodes[i], c);
  }

  // ---- Tokens ----------------------------------------------------------------------------------------

  /** A token of the client, wherever it waits in a cluster that has come to rest after the abort, is gone after
      at most as many deliveries as there are peers. */
  lemma AbortEndsTokens(ring: Ring, states: seq<Cluster>, steps: seq<Step>, j: nat, i: Peer, t: Token, at: Peer)
    returns (after: Cluster)
    requires IsRun(ring, states, steps) && j < |steps| && steps[j] == Abort(i, t.client)
    requires NoCrash(steps, j + 1, |steps|, i)
    requires var s := states[|steps|]; AtRest(s) && t in s.tokens && at in ring.peers
    ensures P.IsStage(StageOf(ring, states[|steps|], Some(t), at))
    ensures var end := P.Travel(StageOf(ring, states[|steps|], Some(t), at), |ring.peers|);
            end.token.None? && Leads(ring, states[|steps|], after) && Mirrors(ring, after, end)
  {
    hide Gone, Silent, Enabled, Next, GoodNode, GoodSlots, GoodEof, P.Travel, Leads;
    var k := |steps|;
    var s := states[k];
    AbortedStaysSilent(ring, states, steps, j, k, i, t.client);
    RunIsSafe(ring, states, steps, k);
    var st := StageOf(ring, s, Some(t), at);
    assert st.states[i] == s.nodes[i].live;
    P.DiesWithinOneRound(st, i);
    after := TravelIsMirrored(ring, s, st, |ring.peers|);
  }
}

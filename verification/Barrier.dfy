/** The completion barrier as a cluster: every peer runs RingCompletion, performs the actions it
    returns one by one, saves its state and may crash between any two effects; tokens may be
    delivered any number of times and to any peer. */
module Barrier {
  import opened Common
  import opened RingCompletion

  /** The peers of a stage. `sent` is what a peer reports for a client whenever it emits it. */
  datatype Ring = Ring(peers: set<Peer>, leader: Peer, sent: (Peer, ClientId) -> Counts) {
    function PlaceOf(i: Peer): Place {
      Place(i, |peers|, leader)
    }
  }

  /** What a node still has to do before it can take its next message. */
  datatype Task = Do(action: Action) | Report(client: ClientId)

  /** A node owes a forced save after a token, an end-of-stream, an abort or a restart. */
  datatype Node = Node(live: State, durable: State, todo: seq<Task>, mustSave: bool)

  datatype Result = Result(peer: Peer, client: ClientId)

  datatype Cluster = Cluster(
    nodes: map<Peer, Node>,
    tokens: set<Token>,
    published: set<Result>,
    eofs: seq<Action>,
    leaderCrashes: nat)

  datatype Input = DataArrives(client: ClientId) | EofArrives(client: ClientId, expected: int)
    | TokenArrives(token: Token)

  datatype Step =
    | Arrive(peer: Peer, input: Input)
    | Perform(peer: Peer)
    | Save(peer: Peer)
    | Crash(peer: Peer, order: seq<ClientId>)
    | Abort(peer: Peer, client: ClientId)

  function Tasks(actions: seq<Action>): (tasks: seq<Task>)
    ensures |tasks| == |actions|
    ensures forall i :: 0 <= i < |tasks| ==> tasks[i] == Do(actions[i])
  {
    seq(|actions|, i requires 0 <= i < |actions| => Do(actions[i]))
  }

  function Emits(order: seq<ClientId>): (tasks: seq<Task>)
    ensures |tasks| == |order|
    ensures forall i :: 0 <= i < |tasks| ==> tasks[i] == Do(Emit(order[i]))
  {
    seq(|order|, i requires 0 <= i < |order| => Do(Emit(order[i])))
  }

  ghost predicate IsStart(ring: Ring, s: Cluster) {
    && ring.leader in ring.peers && s.nodes.Keys == ring.peers
    && (forall i :: i in s.nodes ==> s.nodes[i] == Node(State(map[], {}), State(map[], {}), [], false))
    && s.tokens == {} && s.published == {} && s.eofs == [] && s.leaderCrashes == 0
  }

  ghost function React(place: Place, s: State, input: Input): Outcome {
    match input
    case DataArrives(c) => OnData(s, c)
    case EofArrives(c, expected) => OnUpstreamEof(s, c, expected)
    case TokenArrives(t) => OnToken(place, s, t)
  }

  ghost predicate Enabled(s: Cluster, step: Step) {
    && step.peer in s.nodes
    && match step
       case Arrive(i, input) => s.nodes[i].todo == [] && !s.nodes[i].mustSave
         && (input.TokenArrives? ==> input.token in s.tokens)
       case Perform(i) => s.nodes[i].todo != []
       case Save(i) => true
       case Crash(i, order) => forall c ::
           c in order <==> c in s.nodes[i].durable.clients && s.nodes[i].durable.Complete(c)
       case Abort(i, c) => s.nodes[i].todo == [] && !s.nodes[i].mustSave
  }

  /** One node's next state and what it adds to the network. */
  datatype Effect = Effect(node: Node, tokens: set<Token>, published: set<Result>, eofs: seq<Action>)

  ghost function Moves(ring: Ring, node: Node, step: Step): Effect
    requires step.Perform? ==> node.todo != []
  {
    match step
    case Arrive(i, input) =>
      var o := React(ring.PlaceOf(i), node.live, input);
      Effect(node.(live := o.state, todo := Tasks(o.actions), mustSave := !input.DataArrives?), {}, {}, [])
    case Perform(i) =>
      PerformTask(ring, node, i)
    case Save(i) =>
      Effect(node.(durable := node.live, mustSave := node.mustSave && node.todo != []), {}, {}, [])
    case Crash(i, order) =>
      Effect(Node(node.durable, node.durable, Emits(order), true), {}, {}, [])
    case Abort(i, c) =>
      Effect(node.(live := Drop(node.live, c), mustSave := true), {}, {}, [])
  }

  /** Publishing a client's results and reporting them are separate effects. */
  ghost function PerformTask(ring: Ring, node: Node, i: Peer): Effect
    requires node.todo != []
  {
    var task, rest := node.todo[0], node.todo[1..];
    match task
    case Report(c) =>
      var o := ReportSent(ring.PlaceOf(i), node.live, c, ring.sent(i, c));
      Effect(node.(live := o.state, todo := Tasks(o.actions) + rest), {}, {}, [])
    case Do(Emit(c)) =>
      Effect(node.(todo := [Report(c)] + rest), {}, {Result(i, c)}, [])
    case Do(Forward(t)) =>
      Effect(node.(todo := rest), {t}, {}, [])
    case Do(DownstreamEof(_, _)) =>
      Effect(node.(todo := rest), {}, {}, [task.action])
  }

  ghost function Land(s: Cluster, i: Peer, e: Effect, crashes: nat): Cluster {
    Cluster(s.nodes[i := e.node], s.tokens + e.tokens, s.published + e.published, s.eofs + e.eofs, crashes)
  }

  ghost function Next(ring: Ring, s: Cluster, step: Step): Cluster
    requires Enabled(s, step)
  {
    var e := Moves(ring, s.nodes[step.peer], step);
    Land(s, step.peer, e, s.leaderCrashes + (if step.Crash? && step.peer == ring.leader then 1 else 0))
  }

  ghost predicate IsPath(ring: Ring, states: seq<Cluster>, steps: seq<Step>) {
    && |states| == |steps| + 1
    && forall k :: 0 <= k < |steps| ==> Enabled(states[k], steps[k]) && states[k + 1] == Next(ring, states[k], steps[k])
  }

  /** Some steps lead from one state to the other. */
  ghost predicate Leads(ring: Ring, a: Cluster, b: Cluster) {
    exists states, steps :: IsPath(ring, states, steps) && states[0] == a && states[|steps|] == b
  }

  lemma LeadsNowhere(ring: Ring, a: Cluster)
    ensures Leads(ring, a, a)
  {
    var steps: seq<Step> := [];
    assert IsPath(ring, [a], steps) && [a][0] == a && [a][|steps|] == a;
  }

  lemma LeadsOn(ring: Ring, a: Cluster, b: Cluster, step: Step)
    requires Leads(ring, a, b) && Enabled(b, step)
    ensures Leads(ring, a, Next(ring, b, step))
  {
    var states, steps :| IsPath(ring, states, steps) && states[0] == a && states[|steps|] == b;
    var states2, steps2 := states + [Next(ring, b, step)], steps + [step];
    forall k | 0 <= k < |steps2|
      ensures Enabled(states2[k], steps2[k]) && states2[k + 1] == Next(ring, states2[k], steps2[k])
    {
      if k < |steps| {
        assert states2[k] == states[k] && states2[k + 1] == states[k + 1] && steps2[k] == steps[k];
      }
    }
    assert IsPath(ring, states2, steps2) && states2[0] == a && states2[|steps2|] == Next(ring, b, step);
  }

  ghost predicate IsRun(ring: Ring, states: seq<Cluster>, steps: seq<Step>) {
    IsPath(ring, states, steps) && IsStart(ring, states[0])
  }

  // ---- The invariant -----------------------------------------------------------------------------

  /** The total the whole stage sent to a shard for a client. */
  ghost function StageTotal(ring: Ring, c: ClientId, shard: Shard): nat {
    SumOver((p: Peer) => NumberAt(ring.sent(p, c), shard), ring.peers)
  }

  /** The barrier of this client is over for this peer. */
  ghost predicate Closed(s: State, c: ClientId) {
    s.At(c).phase == Done || c in s.aborted
  }

  /** A slot was written only after its peer published, and holds exactly what the peer reports.
      Only the leader's own slot may be empty instead, once the leader has durably closed the client. */
  ghost predicate GoodSlots(ring: Ring, published: set<Result>, leaderDurable: State, t: Token) {
    && t.origin == ring.leader
    && forall p :: p in t.sentBy ==>
         && p in ring.peers && Result(p, t.client) in published
         && (t.sentBy[p] == ring.sent(p, t.client)
             || (t.sentBy[p] == map[] && p == ring.leader && Closed(leaderDurable, t.client)))
  }

  /** An end-of-stream carries the exact totals of a stage that has published everything. */
  ghost predicate GoodEof(ring: Ring, published: set<Result>, a: Action) {
    && a.DownstreamEof?
    && (forall p :: p in ring.peers ==> Result(p, a.client) in published)
    && (forall shard :: NumberAt(a.expectedPerShard, shard) == StageTotal(ring, a.client, shard))
  }

  /** A record remembers nothing before its peer emits, the report once it has, and one or the other
      when the leader has closed it. */
  ghost predicate GoodClient(ring: Ring, published: set<Result>, i: Peer, c: ClientId, client: Client) {
    match client.phase
    case Processing => client.sent == map[]
    case Emitted => Result(i, c) in published && client.sent == ring.sent(i, c)
    case Done =>
      i == ring.leader && Result(i, c) in published
      && (client.sent == ring.sent(i, c) || client.sent == map[])
  }

  ghost predicate GoodState(ring: Ring, published: set<Result>, i: Peer, s: State) {
    && (forall c :: GoodClient(ring, published, i, c, s.At(c)))
    && (forall c :: c in s.aborted ==> c !in s.clients)
  }

  ghost predicate GoodTask(ring: Ring, published: set<Result>, leaderDurable: State, i: Peer, live: State, task: Task) {
    match task
    case Report(c) => Result(i, c) in published && c !in live.aborted
    case Do(Emit(c)) => c !in live.aborted
    case Do(Forward(t)) => GoodSlots(ring, published, leaderDurable, t)
    case Do(DownstreamEof(_, _)) => i == ring.leader && GoodEof(ring, published, task.action)
  }

  ghost predicate GoodTasks(ring: Ring, published: set<Result>, leaderDurable: State, i: Peer, live: State,
                            todo: seq<Task>)
  {
    forall k :: 0 <= k < |todo| ==> GoodTask(ring, published, leaderDurable, i, live, todo[k])
  }

  /** A closed client remembers what was reported, or its closing is durable or about to be. */
  ghost predicate GoodClosing(ring: Ring, i: Peer, node: Node) {
    && (forall c :: node.live.At(c).phase == Done ==>
          node.live.At(c).sent == ring.sent(i, c) || node.mustSave || Closed(node.durable, c))
    && (forall c :: Closed(node.durable, c) ==> Closed(node.live, c))
  }

  ghost predicate GoodNode(ring: Ring, published: set<Result>, leaderDurable: State, i: Peer, node: Node) {
    && GoodState(ring, published, i, node.live)
    && GoodState(ring, published, i, node.durable)
    && GoodClosing(ring, i, node)
    && GoodTasks(ring, published, leaderDurable, i, node.live, node.todo)
    && (i == ring.leader ==> leaderDurable == node.durable)
  }

  ghost predicate Safe(ring: Ring, s: Cluster) {
    && ring.leader in ring.peers && s.nodes.Keys == ring.peers
    && (forall i :: i in s.nodes ==> GoodNode(ring, s.published, s.nodes[ring.leader].durable, i, s.nodes[i]))
    && (forall t :: t in s.tokens ==> GoodSlots(ring, s.published, s.nodes[ring.leader].durable, t))
    && (forall a :: a in s.eofs ==> GoodEof(ring, s.published, a))
  }

  // ---- What stays good as results are published and clients closed ----------------------------------

  /** The leader's checkpoint has moved on without forgetting a closed client. */
  ghost predicate Keeps(before: State, after: State) {
    forall c :: Closed(before, c) ==> Closed(after, c)
  }

  lemma StillGoodTasks(ring: Ring, pub: set<Result>, d: State, i: Peer, live: State, todo: seq<Task>, pub2: set<Result>,
                       d2: State)
    requires GoodTasks(ring, pub, d, i, live, todo) && pub <= pub2 && Keeps(d, d2)
    ensures GoodTasks(ring, pub2, d2, i, live, todo)
  {
    hide StageTotal, Closed;
    forall k | 0 <= k < |todo| ensures GoodTask(ring, pub2, d2, i, live, todo[k]) {
      assert GoodTask(ring, pub, d, i, live, todo[k]);
    }
  }

  lemma StillGoodSlots(ring: Ring, pub: set<Result>, d: State, t: Token, pub2: set<Result>, d2: State)
    requires GoodSlots(ring, pub, d, t) && pub <= pub2 && Keeps(d, d2)
    ensures GoodSlots(ring, pub2, d2, t)
  {
    hide Closed;
  }

  lemma StillGoodNode(ring: Ring, pub: set<Result>, d: State, i: Peer, node: Node, pub2: set<Result>, d2: State)
    requires GoodNode(ring, pub, d, i, node) && pub <= pub2 && Keeps(d, d2)
    requires i == ring.leader ==> d2 == d
    ensures GoodNode(ring, pub2, d2, i, node)
  {
    StillGoodTasks(ring, pub, d, i, node.live, node.todo, pub2, d2);
  }

  /** What one step does to its own node and to the network. */
  ghost predicate GoodEffect(ring: Ring, published: set<Result>, d: State, i: Peer, e: Effect) {
    && GoodNode(ring, published, d, i, e.node)
    && (forall t :: t in e.tokens ==> GoodSlots(ring, published, d, t))
    && (forall a :: a in e.eofs ==> GoodEof(ring, published, a))
  }

  lemma EffectIsSafe(ring: Ring, s: Cluster, i: Peer, e: Effect, crashes: nat, d: State)
    requires Safe(ring, s) && i in s.nodes
    requires Keeps(s.nodes[ring.leader].durable, d)
    requires i != ring.leader ==> d == s.nodes[ring.leader].durable
    requires GoodEffect(ring, s.published + e.published, d, i, e)
    ensures Safe(ring, Land(s, i, e, crashes))
  {
    var after := Land(s, i, e, crashes);
    var d0 := s.nodes[ring.leader].durable;
    hide StageTotal;
    assert after.nodes[ring.leader].durable == d;
    forall t | t in after.tokens ensures GoodSlots(ring, after.published, d, t) {
      if t in s.tokens {
        StillGoodSlots(ring, s.published, d0, t, after.published, d);
      }
    }
    forall a | a in after.eofs ensures GoodEof(ring, after.published, a) {
      assert a in s.eofs ==> GoodEof(ring, s.published, a);
    }
    hide GoodNode, GoodSlots, GoodEof;
    forall p | p in after.nodes ensures GoodNode(ring, after.published, d, p, after.nodes[p]) {
      if p != i {
        StillGoodNode(ring, s.published, d0, p, s.nodes[p], after.published, d);
      }
    }
  }

  // ---- Each step ------------------------------------------------------------------------------------

  /** A token with a slot for every peer, of a client not yet closed, adds up to the stage's totals. */
  lemma FullTokenTotals(ring: Ring, published: set<Result>, d: State, t: Token)
    requires GoodSlots(ring, published, d, t) && |t.sentBy| >= |ring.peers| && !Closed(d, t.client)
    ensures GoodEof(ring, published, DownstreamEof(t.client, Totals(t.sentBy)))
    ensures t.sentBy.Keys == ring.peers
  {
    forall p | p in t.sentBy.Keys ensures p in ring.peers {
      assert p in t.sentBy && Result(p, t.client) in published;
    }
    SubsetOfSameSize(t.sentBy.Keys, ring.peers);
    forall shard ensures NumberAt(Totals(t.sentBy), shard) == StageTotal(ring, t.client, shard) {
      var f, g := CountFrom(t.sentBy, shard), (p: Peer) => NumberAt(ring.sent(p, t.client), shard);
      forall p | p in ring.peers ensures f(p) == g(p) {
        assert p in t.sentBy && t.sentBy[p] == ring.sent(p, t.client);
      }
      SumOverSame(f, g, ring.peers);
      CountInTotals(t.sentBy, shard);
    }
  }

  /** _advance on a good token asks only for good actions; closing a client is only done by the
      leader, only once per lifetime of its state. */
  lemma AdvanceIsGood(ring: Ring, published: set<Result>, d: State, i: Peer, s: State, t: Token)
    requires ring.leader in ring.peers && GoodState(ring, published, i, s) && GoodSlots(ring, published, d, t)
    requires t.client !in s.aborted
    requires i == ring.leader ==> forall c :: Closed(d, c) ==> Closed(s, c)
    ensures GoodState(ring, published, i, Advance(ring.PlaceOf(i), s, t).state)
    ensures GoodTasks(ring, published, d, i, Advance(ring.PlaceOf(i), s, t).state,
                      Tasks(Advance(ring.PlaceOf(i), s, t).actions))
    ensures Advance(ring.PlaceOf(i), s, t).state.aborted == s.aborted
    ensures forall c :: Advance(ring.PlaceOf(i), s, t).state.At(c) == s.At(c) ||
                        (c == t.client && i == ring.leader && s.At(c).phase != Done &&
                         Advance(ring.PlaceOf(i), s, t).state.At(c) == s.At(c).(phase := Done))
  {
    if |t.sentBy| >= |ring.peers| && t.origin == i && s.At(t.client).phase != Done {
      assert !Closed(s, t.client) && !Closed(d, t.client);
      FullTokenTotals(ring, published, d, t);
      assert GoodClient(ring, published, i, t.client, s.At(t.client));
      assert i in t.sentBy;
      PutIsGood(ring, published, i, s, t.client, s.At(t.client).(phase := Done));
    } else {
      PutIsGood(ring, published, i, s, t.client, s.At(t.client));
    }
    hide StageTotal, Totals, GoodEof;
  }

  /** Replacing one client's record by a good one. */
  lemma PutIsGood(ring: Ring, published: set<Result>, i: Peer, s: State, c: ClientId, client: Client)
    requires GoodState(ring, published, i, s) && c !in s.aborted
    requires GoodClient(ring, published, i, c, client)
    ensures GoodState(ring, published, i, s.Put(c, client))
    ensures forall k :: s.Put(c, client).At(k) == if k == c then client else s.At(k)
    ensures s.Put(c, client).aborted == s.aborted
  {
    var after := s.Put(c, client);
    forall k ensures after.At(k) == if k == c then client else s.At(k) {}
  }

  /** A node whose live state changed at one client, which was not closed and still is not forgotten. */
  ghost predicate Touches(before: State, after: State, c: ClientId) {
    && after.aborted == before.aborted
    && (forall k :: k != c ==> after.At(k) == before.At(k))
    && (before.At(c).phase == Done ==> after.At(c) == before.At(c))
  }

  lemma TouchedClosing(ring: Ring, i: Peer, node: Node, after: Node, c: ClientId)
    requires GoodClosing(ring, i, node) && Touches(node.live, after.live, c)
    requires after.durable == node.durable && (node.mustSave ==> after.mustSave)
    requires after.live.At(c).phase == Done ==>
             node.live.At(c).phase == Done || after.mustSave || after.live.At(c).sent == ring.sent(i, c)
    ensures GoodClosing(ring, i, after)
  {
    forall k | after.live.At(k).phase == Done
      ensures after.live.At(k).sent == ring.sent(i, k) || after.mustSave || Closed(after.durable, k)
    {
      assert k != c ==> after.live.At(k) == node.live.At(k);
    }
    forall k | Closed(after.durable, k) ensures Closed(after.live, k) {
      assert Closed(node.live, k);
      assert k != c ==> after.live.At(k) == node.live.At(k);
    }
  }

  /** on_token: the peer's own slot is written from what it remembers. */
  lemma TokenIsGood(ring: Ring, published: set<Result>, d: State, i: Peer, node: Node, t: Token)
    requires ring.leader in ring.peers && i in ring.peers
    requires GoodNode(ring, published, d, i, node) && GoodSlots(ring, published, d, t) && !node.mustSave
    ensures var o := OnToken(ring.PlaceOf(i), node.live, t);
            GoodNode(ring, published, d, i, node.(live := o.state, todo := Tasks(o.actions), mustSave := true))
  {
    var s := node.live;
    var o := OnToken(ring.PlaceOf(i), s, t);
    var after := node.(live := o.state, todo := Tasks(o.actions), mustSave := true);
    if t.client in s.aborted {
      TouchedClosing(ring, i, node, after, t.client);
    } else {
      PutIsGood(ring, published, i, s, t.client, s.At(t.client));
      var touched := s.Put(t.client, s.At(t.client));
      var stamped := if s.At(t.client).phase == Processing then t else t.(sentBy := t.sentBy[i := s.At(t.client).sent]);
      assert GoodSlots(ring, published, d, stamped);
      AdvanceIsGood(ring, published, d, i, touched, stamped);
      hide Advance, GoodSlots, GoodTasks, GoodState;
      TouchedClosing(ring, i, node, after, t.client);
    }
  }

  lemma ReportIsGood(ring: Ring, published: set<Result>, d: State, i: Peer, node: Node, c: ClientId)
    requires ring.leader in ring.peers && i in ring.peers
    requires GoodNode(ring, published, d, i, node) && Result(i, c) in published && c !in node.live.aborted
    ensures var o := ReportSent(ring.PlaceOf(i), node.live, c, ring.sent(i, c));
            && GoodNode(ring, published, d, i, node.(live := o.state, todo := Tasks(o.actions)))
            && o.state.aborted == node.live.aborted
  {
    var s := node.live;
    var o := ReportSent(ring.PlaceOf(i), s, c, ring.sent(i, c));
    var after := node.(live := o.state, todo := Tasks(o.actions));
    if s.At(c).phase != Processing {
      PutIsGood(ring, published, i, s, c, s.At(c));
      TouchedClosing(ring, i, node, after, c);
    } else {
      PutIsGood(ring, published, i, s, c, s.At(c).(sent := ring.sent(i, c), phase := Emitted));
      var reported := s.Put(c, s.At(c).(sent := ring.sent(i, c), phase := Emitted));
      if i == ring.leader {
        var t := Token(c, ring.leader, map[i := ring.sent(i, c)]);
        TouchedClosing(ring, i, node, node.(live := reported), c);
        AdvanceIsGood(ring, published, d, i, reported, t);
        hide Advance, GoodSlots, GoodTasks, GoodState;
        TouchedClosing(ring, i, node, after, c);
      } else {
        TouchedClosing(ring, i, node, after, c);
      }
    }
  }

  /** A data message or an upstream end-of-stream never moves the phase. */
  lemma CountingIsGood(ring: Ring, published: set<Result>, d: State, i: Peer, node: Node, input: Input)
    requires GoodNode(ring, published, d, i, node) && !input.TokenArrives? && !node.mustSave
    ensures var o := React(ring.PlaceOf(i), node.live, input);
            GoodNode(ring, published, d, i,
                     node.(live := o.state, todo := Tasks(o.actions), mustSave := !input.DataArrives?))
  {
    var o := React(ring.PlaceOf(i), node.live, input);
    CountingKeeps(ring, published, i, node.live, input);
    CountedClosing(ring, i, node, node.(live := o.state, todo := Tasks(o.actions), mustSave := !input.DataArrives?));
    hide GoodState, GoodClosing, React;
  }

  lemma CountingKeeps(ring: Ring, published: set<Result>, i: Peer, s: State, input: Input)
    requires GoodState(ring, published, i, s) && !input.TokenArrives?
    ensures var o := React(ring.PlaceOf(i), s, input);
            && GoodState(ring, published, i, o.state)
            && o.state.aborted == s.aborted
            && (forall k :: o.state.At(k).phase == s.At(k).phase && o.state.At(k).sent == s.At(k).sent)
            && (forall a :: a in o.actions ==> a == Emit(input.client) && input.client !in s.aborted)
  {
    var c := input.client;
    if c !in s.aborted {
      var changed := if input.DataArrives? then s.At(c).(received := s.At(c).received + 1)
        else s.At(c).(expected := input.expected);
      PutIsGood(ring, published, i, s, c, changed);
      PutIsGood(ring, published, i, s.Put(c, changed), c, changed);
      hide GoodState;
    }
  }

  lemma CountedClosing(ring: Ring, i: Peer, node: Node, after: Node)
    requires GoodClosing(ring, i, node) && after.durable == node.durable && !node.mustSave
    requires after.live.aborted == node.live.aborted
    requires forall k ::
               after.live.At(k).phase == node.live.At(k).phase && after.live.At(k).sent == node.live.At(k).sent
    ensures GoodClosing(ring, i, after)
  {
    forall k | Closed(after.durable, k) ensures Closed(after.live, k) {
      assert Closed(node.live, k);
    }
  }

  lemma ArriveIsGood(ring: Ring, s: Cluster, step: Step)
    requires Safe(ring, s) && Enabled(s, step) && step.Arrive?
    ensures GoodEffect(ring, s.published, s.nodes[ring.leader].durable, step.peer,
                       Moves(ring, s.nodes[step.peer], step))
  {
    var node, d := s.nodes[step.peer], s.nodes[ring.leader].durable;
    assert GoodNode(ring, s.published, d, step.peer, node);
    if step.input.TokenArrives? {
      assert GoodSlots(ring, s.published, d, step.input.token);
      TokenIsGood(ring, s.published, d, step.peer, node, step.input.token);
    } else {
      CountingIsGood(ring, s.published, d, step.peer, node, step.input);
    }
  }

  lemma PerformIsGood(ring: Ring, s: Cluster, step: Step)
    requires Safe(ring, s) && Enabled(s, step) && step.Perform?
    ensures GoodEffect(ring, s.published + Moves(ring, s.nodes[step.peer], step).published,
                       s.nodes[ring.leader].durable,
                       step.peer, Moves(ring, s.nodes[step.peer], step))
  {
    var i, node, d := step.peer, s.nodes[step.peer], s.nodes[ring.leader].durable;
    var task, rest := node.todo[0], node.todo[1..];
    assert GoodNode(ring, s.published, d, i, node);
    assert GoodTask(ring, s.published, d, i, node.live, task);
    forall k | 0 <= k < |rest| ensures GoodTask(ring, s.published, d, i, node.live, rest[k]) {
      assert rest[k] == node.todo[k + 1];
    }
    match task
    case Report(c) =>
      ReportIsGood(ring, s.published, d, i, node, c);
      var o := ReportSent(ring.PlaceOf(i), node.live, c, ring.sent(i, c));
      hide ReportSent, GoodState, GoodClosing;
      TasksConcat(ring, s.published, d, i, node.live, o.state, Tasks(o.actions), rest);
      assert s.published + {} == s.published;
    case Do(Emit(c)) =>
      hide GoodState, GoodClosing;
      StillGoodNode(ring, s.published, d, i, node.(todo := rest), s.published + {Result(i, c)}, d);
    case Do(Forward(t)) =>
      hide GoodState, GoodClosing;
      assert s.published + {} == s.published;
    case Do(DownstreamEof(_, _)) =>
      hide GoodState, GoodClosing, StageTotal;
      assert s.published + {} == s.published;
  }

  lemma TasksConcat(ring: Ring, published: set<Result>, d: State, i: Peer, before: State, live: State, a: seq<Task>,
                    b: seq<Task>)
    requires GoodTasks(ring, published, d, i, live, a) && GoodTasks(ring, published, d, i, before, b)
    requires live.aborted == before.aborted
    ensures GoodTasks(ring, published, d, i, live, a + b)
  {
    hide GoodSlots, GoodEof;
    forall k | 0 <= k < |a + b| ensures GoodTask(ring, published, d, i, live, (a + b)[k]) {
      if k < |a| {
        assert GoodTask(ring, published, d, i, live, a[k]);
      } else {
        assert GoodTask(ring, published, d, i, before, b[k - |a|]);
      }
    }
  }

  /** A save moves the checkpoint forward: whatever was closed in it stays closed. */
  lemma SaveIsGood(ring: Ring, s: Cluster, step: Step)
    requires Safe(ring, s) && Enabled(s, step) && step.Save?
    ensures var d := if step.peer == ring.leader then s.nodes[step.peer].live else s.nodes[ring.leader].durable;
            && Keeps(s.nodes[ring.leader].durable, d)
            && GoodEffect(ring, s.published, d, step.peer, Moves(ring, s.nodes[step.peer], step))
  {
    var i, node, d0 := step.peer, s.nodes[step.peer], s.nodes[ring.leader].durable;
    var d := if i == ring.leader then node.live else d0;
    assert GoodNode(ring, s.published, d0, i, node);
    assert Keeps(d0, d);
    StillGoodTasks(ring, s.published, d0, i, node.live, node.todo, s.published, d);
  }

  lemma CrashIsGood(ring: Ring, s: Cluster, step: Step)
    requires Safe(ring, s) && Enabled(s, step) && step.Crash?
    ensures GoodEffect(ring, s.published, s.nodes[ring.leader].durable, step.peer,
                       Moves(ring, s.nodes[step.peer], step))
  {
    var i, node, d := step.peer, s.nodes[step.peer], s.nodes[ring.leader].durable;
    assert GoodNode(ring, s.published, d, i, node);
    forall k | 0 <= k < |step.order| ensures GoodTask(ring, s.published, d, i, node.durable, Emits(step.order)[k]) {
      assert step.order[k] in step.order;
    }
  }

  lemma AbortIsGood(ring: Ring, s: Cluster, step: Step)
    requires Safe(ring, s) && Enabled(s, step) && step.Abort?
    ensures GoodEffect(ring, s.published, s.nodes[ring.leader].durable, step.peer,
                       Moves(ring, s.nodes[step.peer], step))
  {
    var i, node, d := step.peer, s.nodes[step.peer], s.nodes[ring.leader].durable;
    assert GoodNode(ring, s.published, d, i, node);
    var after := Drop(node.live, step.client);
    forall k ensures after.At(k) == if k == step.client then NEW_CLIENT else node.live.At(k) {}
    forall k | Closed(node.live, k) ensures Closed(after, k) {}
  }

  lemma NextIsSafe(ring: Ring, s: Cluster, step: Step)
    requires Safe(ring, s) && Enabled(s, step)
    ensures Safe(ring, Next(ring, s, step))
  {
    var d := s.nodes[ring.leader].durable;
    var e := Moves(ring, s.nodes[step.peer], step);
    var crashes := s.leaderCrashes + (if step.Crash? && step.peer == ring.leader then 1 else 0);
    assert s.published + {} == s.published;
    if step.Save? {
      SaveIsGood(ring, s, step);
      EffectIsSafe(ring, s, step.peer, e, crashes, if step.peer == ring.leader then s.nodes[step.peer].live else d);
    } else {
      assert GoodEffect(ring, s.published + e.published, d, step.peer, e) by {
        match step
        case Arrive(_, _) => ArriveIsGood(ring, s, step);
        case Perform(_) => PerformIsGood(ring, s, step);
        case Crash(_, _) => CrashIsGood(ring, s, step);
        case Abort(_, _) => AbortIsGood(ring, s, step);
      }
      EffectIsSafe(ring, s, step.peer, e, crashes, d);
    }
  }

  lemma StartIsSafe(ring: Ring, s: Cluster)
    requires IsStart(ring, s)
    ensures Safe(ring, s)
  {
    forall i | i in s.nodes ensures GoodNode(ring, s.published, s.nodes[ring.leader].durable, i, s.nodes[i]) {}
  }

  /** Whole runs: every slot of every token in flight, and every end-of-stream sent downstream. */
  lemma {:induction false} RunIsSafe(ring: Ring, states: seq<Cluster>, steps: seq<Step>, k: nat)
    requires IsRun(ring, states, steps) && k < |states|
    ensures Safe(ring, states[k])
  {
    if k == 0 {
      StartIsSafe(ring, states[0]);
    } else {
      RunIsSafe(ring, states, steps, k - 1);
      assert states[k - 1 + 1] == Next(ring, states[k - 1], steps[k - 1]);
      NextIsSafe(ring, states[k - 1], steps[k - 1]);
    }
  }

  // ---- How often a client is closed --------------------------------------------------------------------

  ghost function EofOf(a: Action, c: ClientId): nat {
    if a.DownstreamEof? && a.client == c then 1 else 0
  }

  ghost function IsEofOf(c: ClientId): Action -> nat {
    (a: Action) => EofOf(a, c)
  }

  ghost function IsEofTask(c: ClientId): Task -> nat {
    (t: Task) => if t.Do? then EofOf(t.action, c) else 0
  }

  /** End-of-streams for a client already sent or about to be. */
  ghost function Issued(ring: Ring, s: Cluster, c: ClientId): nat
    requires ring.leader in s.nodes
  {
    SumOf(IsEofOf(c), s.eofs) + SumOf(IsEofTask(c), s.nodes[ring.leader].todo)
  }

  ghost function Flag(s: State, c: ClientId): nat {
    if Closed(s, c) then 1 else 0
  }

  /** A client is closed at most once, and once more after each crash of the leader. */
  ghost predicate Counted(ring: Ring, s: Cluster, c: ClientId)
    requires ring.leader in s.nodes
  {
    Issued(ring, s, c) <= s.leaderCrashes + Flag(s.nodes[ring.leader].live, c)
  }

  /** An outcome closes a client only if it was open. */
  ghost predicate ClosesOnce(s: State, o: Outcome, c: ClientId) {
    SumOf(IsEofTask(c), Tasks(o.actions)) + Flag(s, c) <= Flag(o.state, c)
  }

  lemma AdvanceClosesOnce(place: Place, s: State, t: Token, c: ClientId)
    requires t.client !in s.aborted
    ensures ClosesOnce(s, Advance(place, s, t), c)
  {
    var o := Advance(place, s, t);
    if o.actions != [] {
      assert Tasks(o.actions) == [Do(o.actions[0])];
      SumOfOne(IsEofTask(c), Do(o.actions[0]));
    } else {
      assert Tasks(o.actions) == [];
    }
  }

  lemma TokenClosesOnce(place: Place, s: State, t: Token, c: ClientId)
    ensures ClosesOnce(s, OnToken(place, s, t), c)
  {
    if t.client in s.aborted {
      assert Tasks([]) == [];
    } else {
      var touched := s.Put(t.client, s.At(t.client));
      AdvanceClosesOnce(place, touched, t, c);
      AdvanceClosesOnce(place, touched, t.(sentBy := t.sentBy[place.node := s.At(t.client).sent]), c);
      assert Flag(touched, c) == Flag(s, c);
      hide Advance;
    }
  }

  lemma ReportClosesOnce(place: Place, s: State, client: ClientId, sent: Counts, c: ClientId)
    requires client !in s.aborted
    ensures ClosesOnce(s, ReportSent(place, s, client, sent), c)
  {
    assert Tasks([]) == [];
    if s.At(client).phase == Processing {
      var reported := s.Put(client, s.At(client).(sent := sent, phase := Emitted));
      AdvanceClosesOnce(place, reported, Token(client, place.leader, map[place.node := sent]), c);
      assert Flag(reported, c) == Flag(s, c);
      hide Advance;
    }
  }

  lemma InputClosesOnce(place: Place, s: State, input: Input, c: ClientId)
    ensures ClosesOnce(s, React(place, s, input), c)
  {
    if input.TokenArrives? {
      TokenClosesOnce(place, s, input.token, c);
    } else {
      var o := React(place, s, input);
      assert Flag(o.state, c) == Flag(s, c);
      assert Tasks([]) == [];
      if o.actions != [] {
        assert Tasks(o.actions) == [Do(Emit(input.client))];
        SumOfOne(IsEofTask(c), Do(Emit(input.client)));
      }
    }
  }

  /** The leader's own step: what it adds to its tasks and to the end-of-streams sent. */
  lemma LeaderStepCounts(ring: Ring, node: Node, step: Step, c: ClientId)
    requires step.Perform? ==> node.todo != []
    requires step.Arrive? ==> node.todo == []
    requires forall t :: t in node.todo && t.Report? ==> t.client !in node.live.aborted
    ensures var e := Moves(ring, node, step);
            SumOf(IsEofOf(c), e.eofs) + SumOf(IsEofTask(c), e.node.todo) + Flag(node.live, c)
            <= SumOf(IsEofTask(c), node.todo) + Flag(e.node.live, c) + (if step.Crash? then 1 else 0)
  {
    match step
    case Arrive(i, input) =>
      InputClosesOnce(ring.PlaceOf(i), node.live, input, c);
      hide React;
    case Perform(i) =>
      var task, rest := node.todo[0], node.todo[1..];
      assert task in node.todo;
      assert node.todo == [task] + rest;
      match task {
        case Report(client) =>
          var o := ReportSent(ring.PlaceOf(i), node.live, client, ring.sent(i, client));
          ReportClosesOnce(ring.PlaceOf(i), node.live, client, ring.sent(i, client), c);
          hide ReportSent;
          SumOfConcat(IsEofTask(c), Tasks(o.actions), rest);
        case Do(Emit(client)) =>
          SumOfConcat(IsEofTask(c), [Report(client)], rest);
          SumOfOne(IsEofTask(c), Report(client));
        case Do(Forward(t)) =>
        case Do(DownstreamEof(_, _)) =>
          SumOfOne(IsEofOf(c), task.action);
      }
    case Save(i) =>
    case Crash(i, order) =>
      forall t | t in Emits(order) ensures IsEofTask(c)(t) == 0 {}
      SumOfZero(IsEofTask(c), Emits(order));
    case Abort(i, client) =>
  }

  lemma TasksOf(ring: Ring, s: Cluster, i: Peer, t: Task)
    requires Safe(ring, s) && i in s.nodes && t in s.nodes[i].todo
    ensures t.Report? ==> t.client !in s.nodes[i].live.aborted
    ensures t.Do? && t.action.DownstreamEof? ==> i == ring.leader
  {
    var node := s.nodes[i];
    assert GoodNode(ring, s.published, s.nodes[ring.leader].durable, i, node);
    var k :| 0 <= k < |node.todo| && node.todo[k] == t;
    assert GoodTask(ring, s.published, s.nodes[ring.leader].durable, i, node.live, node.todo[k]);
  }

  lemma NextIsCounted(ring: Ring, s: Cluster, step: Step, c: ClientId)
    requires Safe(ring, s) && Enabled(s, step) && Counted(ring, s, c)
    ensures Counted(ring, Next(ring, s, step), c)
  {
    hide GoodNode, GoodSlots, GoodEof, Moves;
    var e := Moves(ring, s.nodes[step.peer], step);
    SumOfConcat(IsEofOf(c), s.eofs, e.eofs);
    if step.peer == ring.leader {
      forall t | t in s.nodes[step.peer].todo { TasksOf(ring, s, step.peer, t); }
      LeaderStepCounts(ring, s.nodes[step.peer], step, c);
    } else {
      OthersSendNone(ring, s, step);
    }
  }

  lemma OthersSendNone(ring: Ring, s: Cluster, step: Step)
    requires Safe(ring, s) && Enabled(s, step) && step.peer != ring.leader
    ensures Moves(ring, s.nodes[step.peer], step).eofs == []
  {
    hide Safe, React, ReportSent;
    var node := s.nodes[step.peer];
    if step.Perform? {
      LeaderIsIn(ring, s, step.peer);
      TasksOf(ring, s, step.peer, node.todo[0]);
    }
  }

  lemma LeaderIsIn(ring: Ring, s: Cluster, i: Peer)
    requires Safe(ring, s) && i in s.nodes
    ensures ring.leader in s.nodes && i in ring.peers
  {}

  lemma {:induction false} RunIsCounted(ring: Ring, states: seq<Cluster>, steps: seq<Step>, k: nat, c: ClientId)
    requires IsRun(ring, states, steps) && k < |states|
    ensures Safe(ring, states[k]) && Counted(ring, states[k], c)
  {
    hide GoodNode, Next, Enabled, Issued;
    RunIsSafe(ring, states, steps, k);
    if k == 0 {
      StartIsCounted(ring, states[0], c);
    } else {
      RunIsCounted(ring, states, steps, k - 1, c);
      assert states[k - 1 + 1] == Next(ring, states[k - 1], steps[k - 1]);
      NextIsCounted(ring, states[k - 1], steps[k - 1], c);
    }
  }

  lemma StartIsCounted(ring: Ring, s: Cluster, c: ClientId)
    requires IsStart(ring, s)
    ensures Counted(ring, s, c)
  {}

  // ---- The results, over whole runs ----------------------------------------------------------------------

  /** Every end-of-stream ever sent downstream carries, for each shard, exactly what all the peers
      together sent to it, and every peer had published its results by then. */
  lemma EofsAreExact(ring: Ring, states: seq<Cluster>, steps: seq<Step>, k: nat, eof: Action, shard: Shard)
    requires IsRun(ring, states, steps) && k < |states| && eof in states[k].eofs
    ensures eof.DownstreamEof? && NumberAt(eof.expectedPerShard, shard) == StageTotal(ring, eof.client, shard)
    ensures forall p :: p in ring.peers ==> Result(p, eof.client) in states[k].published
  {
    RunIsSafe(ring, states, steps, k);
    assert GoodEof(ring, states[k].published, eof);
  }

  /** A leader that never crashed issues at most one end-of-stream round for a client; each of its
      crashes allows one more. */
  lemma ClosedAtMostOncePerLife(ring: Ring, states: seq<Cluster>, steps: seq<Step>, k: nat, c: ClientId)
    requires IsRun(ring, states, steps) && k < |states|
    ensures SumOf(IsEofOf(c), states[k].eofs) <= states[k].leaderCrashes + 1
  {
    RunIsCounted(ring, states, steps, k, c);
  }

  /** A slot of a token in flight was written after its peer published. It equals what the peer
      reports, except that the leader's slot may be empty once the leader has durably closed the
      client. SlotExactness says which runs have such a slot. */
  lemma SlotsAreExact(ring: Ring, states: seq<Cluster>, steps: seq<Step>, k: nat, t: Token, p: Peer)
    requires IsRun(ring, states, steps) && k < |states| && t in states[k].tokens && p in t.sentBy
    ensures p in ring.peers && ring.leader in states[k].nodes && Result(p, t.client) in states[k].published
    ensures t.sentBy[p] == ring.sent(p, t.client) || t.sentBy[p] == map[]
    ensures p != ring.leader || !Closed(states[k].nodes[ring.leader].durable, t.client) ==>
            t.sentBy[p] == ring.sent(p, t.client)
  {
    RunIsSafe(ring, states, steps, k);
    assert GoodSlots(ring, states[k].published, states[k].nodes[ring.leader].durable, t);
  }
}

/** When the slots of a completion token are right.

    Every slot is what its peer reports, in every state of a run, exactly when the leader never closes
    the client while its own record is still PROCESSING, which only a leader rolled back after sending
    its token can do, or has nothing to report. LostSlot has a run in which it does. */
module SlotExactness {
  import opened Common
  import opened RingCompletion
  import opened Barrier

  /** The full token of a client reaches a leader that has no memory of having emitted it. */
  ghost predicate ClosesEarly(ring: Ring, s: Cluster, step: Step, c: ClientId)
    requires step.peer in s.nodes
  {
    && step.Arrive? && step.input.TokenArrives? && step.peer == ring.leader
    && var t, live := step.input.token, s.nodes[step.peer].live;
       t.client == c && t.origin == ring.leader && |t.sentBy| >= |ring.peers|
       && c !in live.aborted && live.At(c).phase == Processing
  }

  ghost predicate ExactToken(ring: Ring, c: ClientId, t: Token) {
    t.client == c ==> forall p :: p in t.sentBy ==> t.sentBy[p] == ring.sent(p, c)
  }

  /** A peer that is past PROCESSING remembers what it reported. */
  ghost predicate ExactState(ring: Ring, c: ClientId, i: Peer, s: State) {
    s.At(c).phase != Processing ==> s.At(c).sent == ring.sent(i, c)
  }

  ghost predicate ExactTasks(ring: Ring, c: ClientId, todo: seq<Task>) {
    forall k :: 0 <= k < |todo| && todo[k].Do? && todo[k].action.Forward? ==> ExactToken(ring, c, todo[k].action.token)
  }

  ghost predicate ExactNode(ring: Ring, c: ClientId, i: Peer, node: Node) {
    ExactState(ring, c, i, node.live) && ExactState(ring, c, i, node.durable) && ExactTasks(ring, c, node.todo)
  }

  /** Every record past PROCESSING and every slot written, in flight or about to be, is the report. */
  ghost predicate Exact(ring: Ring, c: ClientId, s: Cluster) {
    && (forall i :: i in s.nodes ==> ExactNode(ring, c, i, s.nodes[i]))
    && (forall t :: t in s.tokens ==> ExactToken(ring, c, t))
  }

  ghost predicate ExactOutcome(ring: Ring, c: ClientId, i: Peer, o: Outcome) {
    ExactState(ring, c, i, o.state) && ExactTasks(ring, c, Tasks(o.actions))
  }

  lemma AdvanceIsExact(ring: Ring, c: ClientId, i: Peer, s: State, t: Token)
    requires ExactState(ring, c, i, s) && ExactToken(ring, c, t)
    requires t.client == c && |t.sentBy| >= |ring.peers| && t.origin == i ==> s.At(c).phase != Processing
    ensures ExactOutcome(ring, c, i, Advance(ring.PlaceOf(i), s, t))
  {
    hide Totals;
  }

  lemma TokenIsExact(ring: Ring, c: ClientId, i: Peer, s: State, t: Token)
    requires ExactState(ring, c, i, s) && ExactToken(ring, c, t)
    requires t.client == c && |t.sentBy| >= |ring.peers| && t.origin == i && c !in s.aborted ==>
             s.At(c).phase != Processing
    ensures ExactOutcome(ring, c, i, OnToken(ring.PlaceOf(i), s, t))
  {
    if t.client !in s.aborted {
      var touched := s.Put(t.client, s.At(t.client));
      var stamped := if s.At(t.client).phase == Processing then t else t.(sentBy := t.sentBy[i := s.At(t.client).sent]);
      AdvanceIsExact(ring, c, i, touched, stamped);
      hide Advance, ExactTasks;
    }
  }

  lemma ReportIsExact(ring: Ring, c: ClientId, i: Peer, s: State, client: ClientId)
    requires ExactState(ring, c, i, s)
    ensures ExactOutcome(ring, c, i, ReportSent(ring.PlaceOf(i), s, client, ring.sent(i, client)))
  {
    if s.At(client).phase == Processing {
      var reported := s.Put(client, s.At(client).(sent := ring.sent(i, client), phase := Emitted));
      if i == ring.leader {
        AdvanceIsExact(ring, c, i, reported, Token(client, ring.leader, map[i := ring.sent(i, client)]));
        hide Advance, ExactTasks;
      }
    }
  }

  lemma ReactIsExact(ring: Ring, c: ClientId, i: Peer, s: State, input: Input)
    requires ExactState(ring, c, i, s)
    requires input.TokenArrives? ==> ExactToken(ring, c, input.token)
    requires input.TokenArrives? ==>
               var t := input.token;
               t.client == c && |t.sentBy| >= |ring.peers| && t.origin == i && c !in s.aborted ==>
                 s.At(c).phase != Processing
    ensures ExactOutcome(ring, c, i, React(ring.PlaceOf(i), s, input))
  {
    if input.TokenArrives? {
      TokenIsExact(ring, c, i, s, input.token);
    }
    hide OnToken;
  }

  ghost predicate ExactEffect(ring: Ring, c: ClientId, i: Peer, e: Effect) {
    ExactNode(ring, c, i, e.node) && forall t :: t in e.tokens ==> ExactToken(ring, c, t)
  }

  lemma PerformIsExact(ring: Ring, c: ClientId, i: Peer, node: Node)
    requires ExactNode(ring, c, i, node) && node.todo != []
    ensures ExactEffect(ring, c, i, PerformTask(ring, node, i))
  {
    var task, rest := node.todo[0], node.todo[1..];
    if task.Report? {
      var o := ReportSent(ring.PlaceOf(i), node.live, task.client, ring.sent(i, task.client));
      ReportIsExact(ring, c, i, node.live, task.client);
      hide ReportSent, ExactToken;
    }
  }

  /** Only a step that closes early puts anything but a report into a record or a slot. */
  lemma StepIsExact(ring: Ring, s: Cluster, step: Step, c: ClientId)
    requires Safe(ring, s) && Enabled(s, step) && Exact(ring, c, s) && !ClosesEarly(ring, s, step, c)
    ensures Exact(ring, c, Next(ring, s, step))
  {
    var i, node := step.peer, s.nodes[step.peer];
    assert ExactNode(ring, c, i, node);
    var e := Moves(ring, node, step);
    assert ExactEffect(ring, c, i, e) by {
      match step
      case Arrive(_, input) =>
        if input.TokenArrives? {
          assert GoodSlots(ring, s.published, s.nodes[ring.leader].durable, input.token);
        }
        ReactIsExact(ring, c, i, node.live, input);
      case Perform(_) =>
        PerformIsExact(ring, c, i, node);
      case Save(_) =>
      case Crash(_, order) =>
      case Abort(_, client) =>
    }
    hide Moves, ExactNode, ExactToken, Safe;
  }

  /** A leader that closes early keeps an empty record. */
  lemma EarlyRecordIsEmpty(ring: Ring, s: Cluster, step: Step, c: ClientId)
    requires Safe(ring, s) && Enabled(s, step) && ClosesEarly(ring, s, step, c)
    ensures ring.leader in Next(ring, s, step).nodes
    ensures Next(ring, s, step).nodes[ring.leader].live.At(c).phase == Done
    ensures Next(ring, s, step).nodes[ring.leader].live.At(c).sent == map[]
  {
    var live := s.nodes[ring.leader].live;
    assert GoodNode(ring, s.published, s.nodes[ring.leader].durable, ring.leader, s.nodes[ring.leader]);
    assert GoodClient(ring, s.published, ring.leader, c, live.At(c));
    hide Totals;
  }

  /** With nothing to report the empty record is the report. */
  lemma NothingToLose(ring: Ring, s: Cluster, c: ClientId)
    requires Safe(ring, s) && ring.sent(ring.leader, c) == map[]
    ensures Exact(ring, c, s)
  {
    var d := s.nodes[ring.leader].durable;
    forall i | i in s.nodes ensures ExactNode(ring, c, i, s.nodes[i]) {
      assert GoodNode(ring, s.published, d, i, s.nodes[i]);
      assert GoodClient(ring, s.published, i, c, s.nodes[i].live.At(c));
      assert GoodClient(ring, s.published, i, c, s.nodes[i].durable.At(c));
      forall k | 0 <= k < |s.nodes[i].todo| && s.nodes[i].todo[k].Do? && s.nodes[i].todo[k].action.Forward?
        ensures ExactToken(ring, c, s.nodes[i].todo[k].action.token)
      {
        assert GoodTask(ring, s.published, d, i, s.nodes[i].live, s.nodes[i].todo[k]);
      }
    }
    forall t | t in s.tokens ensures ExactToken(ring, c, t) {
      assert GoodSlots(ring, s.published, d, t);
    }
  }

  /** No step before the k-th closes the client early. */
  ghost predicate NeverEarly(ring: Ring, states: seq<Cluster>, steps: seq<Step>, k: nat, c: ClientId)
    requires IsRun(ring, states, steps) && k < |states|
  {
    forall j :: 0 <= j < k ==> assert Enabled(states[j], steps[j]); !ClosesEarly(ring, states[j], steps[j], c)
  }

  lemma {:induction false} ExactWhileNotEarly(ring: Ring, states: seq<Cluster>, steps: seq<Step>, k: nat, c: ClientId)
    requires IsRun(ring, states, steps) && k < |states| && NeverEarly(ring, states, steps, k, c)
    ensures Exact(ring, c, states[k])
  {
    hide Safe, ClosesEarly;
    if k == 0 {
      hide ExactState;
      forall i | i in states[0].nodes ensures ExactNode(ring, c, i, states[0].nodes[i]) { StartIsExact(ring, c, i); }
    } else {
      ExactWhileNotEarly(ring, states, steps, k - 1, c);
      RunIsSafe(ring, states, steps, k - 1);
      assert Enabled(states[k - 1], steps[k - 1]);
      assert states[k - 1 + 1] == Next(ring, states[k - 1], steps[k - 1]);
      hide Exact, Next, Enabled;
      StepIsExact(ring, states[k - 1], steps[k - 1], c);
    }
  }

  lemma StartIsExact(ring: Ring, c: ClientId, i: Peer)
    ensures ExactNode(ring, c, i, Node(State(map[], {}), State(map[], {}), [], false))
  {}

  /** Every record past PROCESSING and every slot of a client is what its peer reports, throughout a
      run, if and only if the leader never closes the client early, or has nothing to report. */
  lemma SlotsAreExactUnlessClosedEarly(ring: Ring, states: seq<Cluster>, steps: seq<Step>, k: nat, c: ClientId)
    requires IsRun(ring, states, steps) && k < |states|
    ensures (forall j :: 0 <= j <= k ==> Exact(ring, c, states[j]))
            <==> NeverEarly(ring, states, steps, k, c) || ring.sent(ring.leader, c) == map[]
  {
    hide Safe, ExactNode;
    if ring.sent(ring.leader, c) == map[] {
      forall j | 0 <= j <= k ensures Exact(ring, c, states[j]) {
        RunIsSafe(ring, states, steps, j);
        NothingToLose(ring, states[j], c);
      }
    } else if NeverEarly(ring, states, steps, k, c) {
      forall j: nat | 0 <= j <= k ensures Exact(ring, c, states[j]) {
        ExactWhileNotEarly(ring, states, steps, j, c);
      }
    } else {
      var j :| 0 <= j < k && Enabled(states[j], steps[j]) && ClosesEarly(ring, states[j], steps[j], c);
      EarlyIsNotExact(ring, states, steps, j, c);
    }
  }

  lemma EarlyIsNotExact(ring: Ring, states: seq<Cluster>, steps: seq<Step>, j: nat, c: ClientId)
    requires IsRun(ring, states, steps) && j < |steps| && Enabled(states[j], steps[j])
    requires ClosesEarly(ring, states[j], steps[j], c) && ring.sent(ring.leader, c) != map[]
    ensures !Exact(ring, c, states[j + 1])
  {
    RunIsSafe(ring, states, steps, j);
    EarlyRecordIsEmpty(ring, states[j], steps[j], c);
    assert states[j + 1] == Next(ring, states[j], steps[j]);
    hide Next, Safe, ClosesEarly;
    assert !ExactNode(ring, c, ring.leader, states[j + 1].nodes[ring.leader]);
  }

  /** When a token closes the client, the leader's record has its report if and only if the leader had
      emitted by then, or has nothing to report. */
  lemma ClosingKeepsTheReport(ring: Ring, states: seq<Cluster>, steps: seq<Step>, k: nat, t: Token)
    requires IsRun(ring, states, steps) && k < |steps| && steps[k] == Arrive(ring.leader, TokenArrives(t))
    requires ring.leader in states[k].nodes && ring.leader in states[k + 1].nodes
    requires states[k].nodes[ring.leader].live.At(t.client).phase != Done
    requires states[k + 1].nodes[ring.leader].live.At(t.client).phase == Done
    ensures states[k + 1].nodes[ring.leader].live.At(t.client).sent == ring.sent(ring.leader, t.client)
            <==>
              states[k].nodes[ring.leader].live.At(t.client).phase == Emitted
              || ring.sent(ring.leader, t.client) == map[]
  {
    RunIsSafe(ring, states, steps, k);
    var node := states[k].nodes[ring.leader];
    assert GoodNode(ring, states[k].published, states[k].nodes[ring.leader].durable, ring.leader, node);
    assert GoodClient(ring, states[k].published, ring.leader, t.client, node.live.At(t.client));
    assert states[k + 1] == Next(ring, states[k], steps[k]);
    hide Safe, GoodNode, GoodState, IsRun, Totals;
  }

  /** The record still has the report: it is not a leader's closed with nothing in it. */
  ghost predicate Kept(ring: Ring, i: Peer, c: ClientId, record: Client) {
    i != ring.leader || record.phase == Emitted || record.sent != map[] || ring.sent(i, c) == map[]
  }

  /** The token a peer sends on is the one that came while its record is PROCESSING; past that its slot
      is its report if and only if the record still has it. */
  lemma SlotWrittenIsTheRecord(ring: Ring, states: seq<Cluster>, steps: seq<Step>, k: nat, t: Token)
    requires IsRun(ring, states, steps) && k < |steps| && steps[k].Arrive? && steps[k].input == TokenArrives(t)
    requires steps[k].peer in states[k].nodes && t.client !in states[k].nodes[steps[k].peer].live.aborted
    requires steps[k].peer in states[k + 1].nodes
    ensures var i, c := steps[k].peer, t.client;
            var record := states[k].nodes[i].live.At(c);
            forall u :: Do(Forward(u)) in states[k + 1].nodes[i].todo ==>
              if record.phase == Processing then u == t
              else i in u.sentBy && (u.sentBy[i] == ring.sent(i, c) <==> Kept(ring, i, c, record))
  {
    RunIsSafe(ring, states, steps, k);
    var i, c, node := steps[k].peer, t.client, states[k].nodes[steps[k].peer];
    assert GoodNode(ring, states[k].published, states[k].nodes[ring.leader].durable, i, node);
    assert GoodClient(ring, states[k].published, i, c, node.live.At(c));
    assert Enabled(states[k], steps[k]) && states[k + 1] == Next(ring, states[k], steps[k]);
    hide Safe, GoodNode, GoodState, IsRun, Totals;
    TokenWrites(ring, i, node.live, t);
  }

  lemma TokenWrites(ring: Ring, i: Peer, s: State, t: Token)
    requires t.client !in s.aborted
    ensures forall u :: Do(Forward(u)) in Tasks(OnToken(ring.PlaceOf(i), s, t).actions) ==>
              u == if s.At(t.client).phase == Processing then t else t.(sentBy := t.sentBy[i := s.At(t.client).sent])
  {
    hide Totals;
  }

  // ---- Closing early takes a crash ------------------------------------------------------------------

  /** The leader has emitted the client, or forgotten it for good. */
  ghost predicate Begun(s: State, c: ClientId) {
    s.At(c).phase != Processing || c in s.aborted
  }

  ghost predicate BegunTasks(leader: State, todo: seq<Task>) {
    forall k :: 0 <= k < |todo| && todo[k].Do? && todo[k].action.Forward? ==> Begun(leader, todo[k].action.token.client)
  }

  /** Every token of a client was started by a leader that still knows it. */
  ghost predicate Started(ring: Ring, s: Cluster)
    requires ring.leader in s.nodes
  {
    && (forall i :: i in s.nodes ==> BegunTasks(s.nodes[ring.leader].live, s.nodes[i].todo))
    && (forall t :: t in s.tokens ==> Begun(s.nodes[ring.leader].live, t.client))
  }

  lemma ReactKeepsBegun(place: Place, s: State, input: Input, leader: State)
    requires input.TokenArrives? ==> Begun(leader, input.token.client)
    ensures forall c :: Begun(s, c) ==> Begun(React(place, s, input).state, c)
    ensures BegunTasks(leader, Tasks(React(place, s, input).actions))
  {
    hide Totals;
  }

  lemma ReportKeepsBegun(ring: Ring, i: Peer, s: State, client: ClientId, leader: State)
    ensures var o := ReportSent(ring.PlaceOf(i), s, client, ring.sent(i, client));
            && (forall c :: Begun(s, c) ==> Begun(o.state, c))
            && BegunTasks(if i == ring.leader then o.state else leader, Tasks(o.actions))
  {
    hide Totals;
  }

  /** One step of any node but a crash of the leader; `leader` is the leader's live state before it. */
  lemma MovesKeepBegun(ring: Ring, node: Node, step: Step, leader: State)
    requires step.Perform? ==> node.todo != []
    requires step.peer == ring.leader ==> leader == node.live && !step.Crash?
    requires step.Arrive? && step.input.TokenArrives? ==> Begun(leader, step.input.token.client)
    requires BegunTasks(leader, node.todo)
    ensures var e := Moves(ring, node, step);
            var after := if step.peer == ring.leader then e.node.live else leader;
            && (forall c :: Begun(leader, c) ==> Begun(after, c))
            && BegunTasks(after, e.node.todo)
            && (forall t :: t in e.tokens ==> Begun(after, t.client))
  {
    match step
    case Arrive(i, input) =>
      ReactKeepsBegun(ring.PlaceOf(i), node.live, input, leader);
      hide React;
    case Perform(i) =>
      if node.todo[0].Report? {
        ReportKeepsBegun(ring, i, node.live, node.todo[0].client, leader);
        hide ReportSent;
      }
    case Save(_) =>
    case Crash(_, _) =>
    case Abort(_, c) =>
  }

  lemma StepKeepsStarted(ring: Ring, s: Cluster, step: Step)
    requires Enabled(s, step) && ring.leader in s.nodes && Started(ring, s)
    requires Next(ring, s, step).leaderCrashes == s.leaderCrashes
    ensures Started(ring, Next(ring, s, step))
  {
    var i, node, leader := step.peer, s.nodes[step.peer], s.nodes[ring.leader].live;
    var e := Moves(ring, node, step);
    assert BegunTasks(leader, node.todo);
    MovesKeepBegun(ring, node, step, leader);
    hide Moves, Begun;
    forall p | p in s.nodes && p != i ensures BegunTasks(Next(ring, s, step).nodes[ring.leader].live, s.nodes[p].todo) {
      assert BegunTasks(leader, s.nodes[p].todo);
    }
  }

  lemma {:induction false} StartedWithoutCrash(ring: Ring, states: seq<Cluster>, steps: seq<Step>, k: nat)
    requires IsRun(ring, states, steps) && k < |states| && states[k].leaderCrashes == 0
    ensures ring.leader in states[k].nodes && Started(ring, states[k])
  {
    if k > 0 {
      assert Enabled(states[k - 1], steps[k - 1]);
      assert states[k - 1 + 1] == Next(ring, states[k - 1], steps[k - 1]);
      assert states[k - 1].leaderCrashes <= states[k].leaderCrashes;
      StartedWithoutCrash(ring, states, steps, k - 1);
      hide Started, Next, Enabled;
      StepKeepsStarted(ring, states[k - 1], steps[k - 1]);
      assert ring.leader in Next(ring, states[k - 1], steps[k - 1]).nodes by { RunIsSafe(ring, states, steps, k); }
    }
  }

  /** Only a leader that was rolled back closes early. */
  lemma ClosingEarlyTakesACrash(ring: Ring, states: seq<Cluster>, steps: seq<Step>, k: nat, c: ClientId)
    requires IsRun(ring, states, steps) && k < |steps| && states[k].leaderCrashes == 0
    ensures Enabled(states[k], steps[k]) && !ClosesEarly(ring, states[k], steps[k], c)
  {
    StartedWithoutCrash(ring, states, steps, k);
  }
}

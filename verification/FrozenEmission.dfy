/** Why a re-emission is identical. A node that owes a client's results on the end-of-stream path
    saves its whole image - business state, completion records and counters - before the first send
    and again after the report. The machine's steps are the single effects: an arrival, a save, one
    send, the report, freeing a client, and a crash with its restore and recheck between any two of
    them. */
module FrozenEmission {
  import opened Common
  import opened Ledger
  import R = Replay
  import E = Emission
  import C = RingCompletion

  /** What a client's emission consists of. */
  datatype Emission = Emission(client: ClientId, results: seq<Routed<int>>)

  /** The business code of a stateful node and its place in the ring. */
  datatype Code<!S> = Code(
    apply: (S, Message) -> S,
    results: (S, ClientId) -> seq<Routed<int>>,
    discard: (S, ClientId) -> S,
    place: C.Place,
    shards: Shards,
    broadcast: bool)
  {
    function SendsOf(results: seq<Routed<int>>): seq<R.Send> {
      E.SendsOf(results, shards, broadcast)
    }
  }

  /** What a checkpoint holds; `log` is the history of the emissions it has behind it. */
  datatype Image<S> = Image(state: S, ring: C.State, counters: map<R.Route, nat>, log: seq<Emission>)

  datatype Task = Save | Emit(client: ClientId) | SendOut(send: R.Send) | Report(client: ClientId)
    | Free(client: ClientId)

  datatype Node<S> = Node(live: Image<S>, durable: Image<S>, todo: seq<Task>, sent: Counts, published: seq<R.Output>)

  datatype Move =
    | DataArrives(message: Message)
    | EofArrives(client: ClientId, expected: int)
    | TokenArrives(token: C.Token)
    | AbortArrives(client: ClientId)
    | Checkpoint
    | Perform
    | Crash(order: seq<ClientId>, resolved: seq<ClientId>)

  ghost predicate IsStart<S>(n: Node<S>) {
    && n.live == n.durable && n.todo == [] && n.published == []
    && n.live.ring == C.State(map[], {}) && n.live.counters == map[] && n.live.log == []
  }

  /** A restart rechecks the clients found complete, in any order, and frees those already resolved. */
  ghost predicate IsListing(order: seq<ClientId>, ring: C.State) {
    && (forall c :: c in order <==> c in ring.clients && ring.Complete(c))
    && Distinct(order)
  }

  /** Messages are taken one at a time. A data message that completes its client emits inside apply and
      is not a move of this machine. */
  ghost predicate Enabled<S>(code: Code<S>, n: Node<S>, move: Move) {
    match move
    case DataArrives(m) => n.todo == [] && C.OnData(n.live.ring, m.client).actions == []
    case Perform => n.todo != []
    case Crash(order, resolved) =>
      IsListing(order, n.durable.ring) && forall c ::
          c in resolved ==> c in order || n.durable.ring.At(c).phase != C.Processing
    case _ => n.todo == []
  }

  function Outs(sends: seq<R.Send>): (tasks: seq<Task>)
    ensures |tasks| == |sends|
  {
    seq(|sends|, i requires 0 <= i < |sends| => SendOut(sends[i]))
  }

  function Emits(order: seq<ClientId>): (tasks: seq<Task>)
    ensures |tasks| == |order|
  {
    seq(|order|, i requires 0 <= i < |order| => Emit(order[i]))
  }

  function Frees(resolved: seq<ClientId>): (tasks: seq<Task>)
    ensures |tasks| == |resolved|
  {
    seq(|resolved|, i requires 0 <= i < |resolved| => Free(resolved[i]))
  }

  ghost function Next<S>(code: Code<S>, n: Node<S>, move: Move): Node<S>
    requires Enabled(code, n, move)
  {
    match move
    case DataArrives(m) =>
      n.(live := n.live.(state := code.apply(n.live.state, m), ring := C.OnData(n.live.ring, m.client).state))
    case EofArrives(c, expected) =>
      var o := C.OnUpstreamEof(n.live.ring, c, expected);
      n.(live := n.live.(ring := o.state), todo := if o.actions == [] then [Save] else [Save, Emit(c), Save, Free(c)])
    case TokenArrives(t) =>
      n.(live := n.live.(ring := C.OnToken(code.place, n.live.ring, t).state), todo := [Save])
    case AbortArrives(c) =>
      n.(live := n.live.(state := code.discard(n.live.state, c), ring := C.Drop(n.live.ring, c)), todo := [Save])
    case Checkpoint =>
      n.(durable := n.live)
    case Perform =>
      PerformTask(code, n)
    case Crash(order, resolved) =>
      n.(live := n.durable, todo := Emits(order) + Frees(resolved) + [Save])
  }

  ghost function PerformTask<S>(code: Code<S>, n: Node<S>): Node<S>
    requires n.todo != []
  {
    var m := n.(todo := n.todo[1..]);
    match n.todo[0]
    case Save =>
      m.(durable := n.live)
    case Emit(c) =>
      m.(todo := Outs(code.SendsOf(code.results(n.live.state, c))) + [Report(c)] + m.todo, sent := map[])
    case SendOut(send) =>
      var stamp := NumberAt(n.live.counters, send.route) + 1;
      m.(live := n.live.(counters := n.live.counters[send.route := stamp]),
         sent := n.sent[send.route := NumberAt(n.sent, send.route) + 1],
         published := n.published + [R.Output(send.route, stamp, send.payload)])
    case Report(c) =>
      m.(live := n.live.(ring := C.ReportSent(code.place, n.live.ring, c, n.sent).state,
                         log := n.live.log + [Emission(c, code.results(n.live.state, c))]))
    case Free(c) =>
      m.(live := n.live.(state := code.discard(n.live.state, c)))
  }

  ghost predicate IsRun<S(!new)>(code: Code<S>, states: seq<Node<S>>, moves: seq<Move>) {
    && |states| == |moves| + 1
    && IsStart(states[0])
    && forall k ::
        0 <= k < |moves| ==> Enabled(code, states[k], moves[k]) && states[k + 1] == Next(code, states[k], moves[k])
  }

  // ---- The sends of a history ----------------------------------------------------------------------

  ghost function SendsOfLog<S>(code: Code<S>, log: seq<Emission>): seq<R.Send> {
    if log == [] then [] else SendsOfLog(code, log[..|log| - 1]) + code.SendsOf(log[|log| - 1].results)
  }

  lemma SendsOfLogSnoc<S>(code: Code<S>, log: seq<Emission>, e: Emission)
    ensures SendsOfLog(code, log + [e]) == SendsOfLog(code, log) + code.SendsOf(e.results)
  {
    assert (log + [e])[..|log + [e]| - 1] == log;
  }

  // ---- Completion records ----------------------------------------------------------------------------

  ghost predicate Disjoint(s: C.State) {
    forall c :: c in s.aborted ==> c !in s.clients
  }

  ghost predicate NoneComplete(s: C.State) {
    forall c :: !s.Complete(c)
  }

  ghost predicate OnlyComplete(s: C.State, c: ClientId) {
    s.Complete(c) && forall k :: s.Complete(k) ==> k == c
  }

  /** A live client past PROCESSING stays so and keeps what it reported. */
  ghost predicate Advances(a: C.State, b: C.State) {
    && Disjoint(b) && a.aborted <= b.aborted
    && forall k ::
        a.At(k).phase != C.Processing ==>
        k in b.aborted || (b.At(k).phase != C.Processing && b.At(k).sent == a.At(k).sent)
  }

  lemma DataAdvances(s: C.State, c: ClientId)
    requires Disjoint(s) && NoneComplete(s) && C.OnData(s, c).actions == []
    ensures Advances(s, C.OnData(s, c).state) && NoneComplete(C.OnData(s, c).state)
  {
    var after := C.OnData(s, c).state;
    forall k ensures (k != c ==> after.At(k) == s.At(k)) && !after.Complete(k) {
      assert !s.Complete(k);
    }
  }

  lemma EofAdvances(s: C.State, c: ClientId, expected: int)
    requires Disjoint(s) && NoneComplete(s)
    ensures var o := C.OnUpstreamEof(s, c, expected);
            Advances(s, o.state) && if o.actions == [] then NoneComplete(o.state) else OnlyComplete(o.state, c)
  {
    var o := C.OnUpstreamEof(s, c, expected);
    forall k | k != c ensures o.state.At(k) == s.At(k) && !o.state.Complete(k) {
      assert !s.Complete(k);
    }
    assert c in s.aborted ==> !s.Complete(c);
  }

  lemma TokenAdvances(place: C.Place, s: C.State, t: C.Token)
    requires Disjoint(s) && NoneComplete(s)
    ensures Advances(s, C.OnToken(place, s, t).state) && NoneComplete(C.OnToken(place, s, t).state)
  {
    hide C.Totals;
    var after := C.OnToken(place, s, t).state;
    forall k
      ensures after.At(k) == s.At(k) || (after.At(k).phase == C.Done && after.At(k).sent == s.At(k).sent)
      ensures !after.Complete(k)
    {
      assert !s.Complete(k);
    }
  }

  lemma DropAdvances(s: C.State, c: ClientId)
    requires Disjoint(s) && NoneComplete(s)
    ensures Advances(s, C.Drop(s, c)) && NoneComplete(C.Drop(s, c))
  {
    var after := C.Drop(s, c);
    forall k ensures after.At(k) == (if k == c then C.NEW_CLIENT else s.At(k)) && !after.Complete(k) {
      assert !s.Complete(k);
    }
  }

  lemma ReportAdvances(place: C.Place, s: C.State, c: ClientId, sent: Counts)
    requires Disjoint(s) && OnlyComplete(s, c)
    ensures var after := C.ReportSent(place, s, c, sent).state;
            Advances(s, after) && NoneComplete(after) && after.At(c).phase != C.Processing && after.At(c).sent == sent
  {
    hide C.Totals;
    var after := C.ReportSent(place, s, c, sent).state;
    forall k ensures (k != c ==> after.At(k) == s.At(k)) && !after.Complete(k) {
      assert s.Complete(k) ==> k == c;
    }
  }

  // ---- The invariant -----------------------------------------------------------------------------------

  /** What the client reported is what its emission sent, unless it was aborted since. */
  ghost predicate Recorded<S>(code: Code<S>, ring: C.State, e: Emission) {
    || e.client in ring.aborted
    || (ring.At(e.client).phase != C.Processing &&
        forall shard: C.Shard ::
            NumberAt(ring.At(e.client).sent, shard) == R.CountOn(code.SendsOf(e.results), shard))
  }

  ghost predicate GoodImage<S>(code: Code<S>, im: Image<S>) {
    && Disjoint(im.ring)
    && (forall i :: 0 <= i < |im.log| ==> Recorded(code, im.ring, im.log[i]))
    && (forall i, j :: 0 <= i < j < |im.log| ==> im.log[i].client != im.log[j].client)
  }

  lemma StillRecorded<S>(code: Code<S>, im: Image<S>, after: Image<S>)
    requires GoodImage(code, im) && Advances(im.ring, after.ring) && after.log == im.log
    ensures GoodImage(code, after)
  {
    forall i | 0 <= i < |im.log| ensures Recorded(code, after.ring, im.log[i]) {
      assert Recorded(code, im.ring, im.log[i]);
    }
  }

  /** Saves and frees only. */
  ghost predicate IsTail(todo: seq<Task>) {
    forall k :: 0 <= k < |todo| ==> todo[k].Save? || todo[k].Free?
  }

  /** Where the node is between two checkpoints: it owes nothing, or it owes the emission of a client of
      which the consumers have seen `reached` sends, `made` of them made again since the last start. */
  datatype Phase =
    | Resting
    | Owing(client: ClientId, reached: nat)
    | Sending(client: ClientId, reached: nat, made: nat, rest: seq<Task>)
    | Reported(client: ClientId)

  ghost function Behind<S>(code: Code<S>, n: Node<S>): seq<R.Send> {
    SendsOfLog(code, n.durable.log)
  }

  /** The emission a node owes, by its checkpoint. */
  ghost function Owed<S>(code: Code<S>, n: Node<S>, c: ClientId): seq<R.Send> {
    code.SendsOf(code.results(n.durable.state, c))
  }

  /** The consumers, repetitions dropped, have seen this much of these sends. */
  ghost predicate Seen(published: seq<R.Output>, sends: seq<R.Send>, reached: nat) {
    reached <= |sends| && R.FirstOccurrences(published) == R.StampAll(sends)[..reached]
  }

  /** The image the next emission is made from is the one that was saved. */
  ghost predicate IsFrozen<S>(n: Node<S>) {
    n.live.state == n.durable.state && n.live.ring == n.durable.ring && n.live.log == n.durable.log
  }

  ghost predicate InPhase<S>(code: Code<S>, n: Node<S>, phase: Phase) {
    match phase
    case Resting =>
      && NoneComplete(n.durable.ring) && n.live.log == n.durable.log && n.live.counters == n.durable.counters
      && Seen(n.published, Behind(code, n), |Behind(code, n)|)
      && ((IsTail(n.todo) && NoneComplete(n.live.ring)) ||
          (|n.todo| == 4 && n.todo[1].Emit? && n.todo == [Save, n.todo[1], Save, Free(n.todo[1].client)] &&
           OnlyComplete(n.live.ring, n.todo[1].client)))
    case Owing(c, reached) =>
      && OnlyComplete(n.durable.ring, c) && n.live == n.durable
      && Seen(n.published, Behind(code, n) + Owed(code, n, c), |Behind(code, n)| + reached)
      && n.todo != [] && n.todo[0] == Emit(c) && IsTail(n.todo[1..]) && Save in n.todo[1..]
    case Sending(c, reached, made, rest) =>
      && OnlyComplete(n.durable.ring, c) && IsFrozen(n) && made <= reached && made <= |Owed(code, n, c)|
      && Seen(n.published, Behind(code, n) + Owed(code, n, c), |Behind(code, n)| + reached)
      && E.Stands(n.live.counters, Behind(code, n) + Owed(code, n, c)[..made])
      && E.Stands(n.sent, Owed(code, n, c)[..made])
      && n.todo == Outs(Owed(code, n, c)[made..]) + [Report(c)] + rest && IsTail(rest) && Save in rest
    case Reported(c) =>
      && OnlyComplete(n.durable.ring, c) && NoneComplete(n.live.ring)
      && n.live.log == n.durable.log + [Emission(c, code.results(n.durable.state, c))]
      && E.Stands(n.live.counters, SendsOfLog(code, n.live.log))
      && Seen(n.published, SendsOfLog(code, n.live.log), |SendsOfLog(code, n.live.log)|)
      && IsTail(n.todo) && Save in n.todo
  }

  ghost predicate Good<S>(code: Code<S>, n: Node<S>, phase: Phase) {
    && GoodImage(code, n.live) && GoodImage(code, n.durable)
    && E.Stands(n.durable.counters, Behind(code, n))
    && InPhase(code, n, phase)
  }

  // ---- Each step ------------------------------------------------------------------------------------------

  /** Nothing is complete between messages, and whatever arrives leaves the checkpoint alone. */
  lemma ArrivalIsGood<S>(code: Code<S>, n: Node<S>, move: Move)
    requires Good(code, n, Resting) && n.todo == [] && Enabled(code, n, move) && !move.Perform? && !move.Crash?
             && !move.Checkpoint?
    ensures Good(code, Next(code, n, move), Resting)
  {
    hide R.FirstOccurrences, SendsOfLog, Recorded, C.OnToken, C.OnData, C.OnUpstreamEof, C.Drop, Disjoint;
    match move
    case DataArrives(m) =>
      DataAdvances(n.live.ring, m.client);
      StillRecorded(code, n.live, Next(code, n, move).live);
    case EofArrives(c, expected) =>
      EofAdvances(n.live.ring, c, expected);
      StillRecorded(code, n.live, Next(code, n, move).live);
    case TokenArrives(t) =>
      TokenAdvances(code.place, n.live.ring, t);
      StillRecorded(code, n.live, Next(code, n, move).live);
    case AbortArrives(c) =>
      DropAdvances(n.live.ring, c);
      StillRecorded(code, n.live, Next(code, n, move).live);
  }

  lemma SeenLonger(published: seq<R.Output>, sends: seq<R.Send>, more: seq<R.Send>)
    requires Seen(published, sends, |sends|)
    ensures Seen(published, sends + more, |sends|)
  {
    R.StampPrefix(sends, sends + more);
    hide R.FirstOccurrences, R.StampAt;
    assert R.StampAll(sends) == R.StampAll(sends)[..|sends|];
  }

  /** Tasks of a node that owes nothing, the save before an emission among them. */
  lemma RestingPerforms<S>(code: Code<S>, n: Node<S>) returns (phase: Phase)
    requires Good(code, n, Resting) && n.todo != []
    ensures Good(code, PerformTask(code, n), phase)
  {
    hide R.FirstOccurrences, SendsOfLog, Recorded, Disjoint, E.Stands, E.SendsOf;
    var after := PerformTask(code, n);
    if IsTail(n.todo) && NoneComplete(n.live.ring) {
      phase := Resting;
      forall k | 0 <= k < |after.todo| ensures after.todo[k].Save? || after.todo[k].Free? {
        assert after.todo[k] == n.todo[k + 1];
      }
    } else {
      var c := n.todo[1].client;
      phase := Owing(c, 0);
      SeenLonger(n.published, Behind(code, n), Owed(code, after, c));
    }
  }

  /** Any crash goes back to the checkpoint, which owes what it owed. */
  lemma CrashIsGood<S>(code: Code<S>, n: Node<S>, move: Move, phase: Phase) returns (phase2: Phase)
    requires Good(code, n, phase) && Enabled(code, n, move) && move.Crash?
    ensures Good(code, Next(code, n, move), phase2)
  {
    hide R.FirstOccurrences, SendsOfLog, Recorded, Disjoint, E.Stands, E.SendsOf, Outs, OnlyComplete, NoneComplete,
      IsListing, Emits, Frees, IsTail;
    TailOf(move.resolved);
    if phase.Resting? {
      NoneInOrder(move.order, n.durable.ring);
      assert [] + Frees(move.resolved) + [Save] == Frees(move.resolved) + [Save];
      phase2 := Resting;
    } else {
      var c := phase.client;
      OneInOrder(move.order, n.durable.ring, c);
      assert ([Emit(c)] + Frees(move.resolved) + [Save])[1..] == Frees(move.resolved) + [Save];
      phase2 := Owing(c, if phase.Reported? then |Owed(code, n, c)| else phase.reached);
      SendsOfLogSnoc(code, n.durable.log, Emission(c, code.results(n.durable.state, c)));
    }
  }

  lemma FirstIn<T>(s: seq<T>)
    ensures s == [] || s[0] in s
  {}

  lemma NoneInOrder(order: seq<ClientId>, ring: C.State)
    requires IsListing(order, ring) && NoneComplete(ring)
    ensures order == [] && Emits(order) == []
  {
    FirstIn(order);
    forall c ensures c !in order {
      assert !ring.Complete(c);
    }
  }

  lemma CompleteIsThere(s: C.State, c: ClientId)
    requires s.Complete(c)
    ensures c in s.clients
  {}

  lemma TailOf(resolved: seq<ClientId>)
    ensures IsTail(Frees(resolved) + [Save]) && Save in Frees(resolved) + [Save]
  {
    assert (Frees(resolved) + [Save])[|resolved|] == Save;
  }

  /** The recheck finds at most one client. */
  lemma OneInOrder(order: seq<ClientId>, ring: C.State, c: ClientId)
    requires IsListing(order, ring) && OnlyComplete(ring, c)
    ensures order == [c] && Emits(order) == [Emit(c)]
  {
    assert c in order by { CompleteIsThere(ring, c); }
    assert |order| > 1 ==> order[0] != order[1];
    forall i | 0 <= i < |order| ensures order[i] == c {
      assert order[i] in order;
    }
  }

  lemma OwingPerforms<S>(code: Code<S>, n: Node<S>, phase: Phase)
    requires Good(code, n, phase) && phase.Owing?
    ensures Good(code, PerformTask(code, n), Sending(phase.client, phase.reached, 0, n.todo[1..]))
  {
    hide R.FirstOccurrences, SendsOfLog, Recorded, Disjoint, E.SendsOf;
    var c := phase.client;
    assert Owed(code, n, c)[..0] == [] && Owed(code, n, c)[0..] == Owed(code, n, c);
    assert Behind(code, n) + [] == Behind(code, n);
  }

  /** One send more: seen already, or the next one. */
  lemma SendingOne<S>(code: Code<S>, n: Node<S>, phase: Phase)
    requires Good(code, n, phase) && phase.Sending? && phase.made < |Owed(code, n, phase.client)|
    ensures Good(code, PerformTask(code, n),
                 Sending(phase.client, if phase.made < phase.reached then phase.reached else phase.made + 1,
                         phase.made + 1, phase.rest))
  {
    hide R.FirstOccurrences, SendsOfLog, Recorded, Disjoint, E.SendsOf, E.Stands, R.CountOn, NumberAt, Seen,
      OnlyComplete;
    var c, owed, earlier := phase.client, Owed(code, n, phase.client), Behind(code, n);
    var send, rest := owed[phase.made], phase.rest;
    OutsStep(owed, phase.made, [Report(c)] + rest);
    assert n.todo == Outs(owed[phase.made..]) + ([Report(c)] + rest);
    assert Outs(owed[phase.made + 1..]) + ([Report(c)] + rest) == Outs(owed[phase.made + 1..]) + [Report(c)] + rest;
    StandsStep(n.live.counters, earlier, owed, phase.made);
    assert [] + owed[..phase.made] == owed[..phase.made] && [] + owed[..phase.made + 1] == owed[..phase.made + 1];
    StandsStep(n.sent, [], owed, phase.made);
    SeenStep(n.published, n.live.counters, earlier, owed, phase.reached, phase.made);
  }

  lemma OutsStep(sends: seq<R.Send>, i: nat, rest: seq<Task>)
    requires i < |sends|
    ensures Outs(sends[i..]) + rest == [SendOut(sends[i])] + (Outs(sends[i + 1..]) + rest)
  {
    assert Outs(sends[i..]) == [SendOut(sends[i])] + Outs(sends[i + 1..]);
  }

  lemma StandsStep(counters: map<R.Route, nat>, earlier: seq<R.Send>, sends: seq<R.Send>, i: nat)
    requires i < |sends| && E.Stands(counters, earlier + sends[..i])
    ensures E.Stands(counters[sends[i].route := NumberAt(counters, sends[i].route) + 1], earlier + sends[..i + 1])
  {
    hide R.CountOn;
    assert earlier + sends[..i + 1] == earlier + sends[..i] + [sends[i]];
    forall r { R.CountOnSnoc(earlier + sends[..i], sends[i], r); }
  }

  lemma SeenStep(published: seq<R.Output>, counters: map<R.Route, nat>, earlier: seq<R.Send>, sends: seq<R.Send>,
                 reached: nat, i: nat)
    requires i <= reached && i < |sends| && E.Stands(counters, earlier + sends[..i])
    requires Seen(published, earlier + sends, |earlier| + reached)
    ensures Seen(published + [R.Output(sends[i].route, NumberAt(counters, sends[i].route) + 1, sends[i].payload)],
                 earlier + sends,
                 |earlier| + if i < reached then reached else i + 1)
  {
    var all := earlier + sends;
    assert all[..|earlier| + i + 1] == earlier + sends[..i] + [sends[i]];
    R.CountOnSnoc(earlier + sends[..i], sends[i], sends[i].route);
    R.StampedOnce(all);
    hide R.FirstOccurrences, R.CountOn, Distinct;
    assert R.StampAll(all)[|earlier| + i]
           == R.Output(sends[i].route, NumberAt(counters, sends[i].route) + 1, sends[i].payload);
    R.EmitOne(published, R.StampAll(all), |earlier| + reached, |earlier| + i);
  }

  /** The report, after the last send. */
  lemma SendingReports<S>(code: Code<S>, n: Node<S>, phase: Phase)
    requires Good(code, n, phase) && phase.Sending? && phase.made == |Owed(code, n, phase.client)|
    ensures Good(code, PerformTask(code, n), Reported(phase.client))
  {
    hide R.FirstOccurrences, SendsOfLog, E.SendsOf, E.Stands, C.ReportSent, Disjoint, Recorded, OnlyComplete;
    var c, owed := phase.client, Owed(code, n, phase.client);
    assert owed[phase.made..] == [] && owed[..phase.made] == owed;
    assert n.todo == [Report(c)] + phase.rest;
    var e := Emission(c, code.results(n.live.state, c));
    SendsOfLogSnoc(code, n.live.log, e);
    ReportAdvances(code.place, n.live.ring, c, n.sent) by { assert Disjoint(n.live.ring); }
    ReportIsRecorded(code, n.live, PerformTask(code, n).live, e, n.sent);
  }

  lemma ReportIsRecorded<S>(code: Code<S>, im: Image<S>, after: Image<S>, e: Emission, sent: Counts)
    requires GoodImage(code, im) && Advances(im.ring, after.ring) && after.log == im.log + [e]
             && OnlyComplete(im.ring, e.client)
    requires after.ring.At(e.client).phase != C.Processing && after.ring.At(e.client).sent == sent
    requires E.Stands(sent, code.SendsOf(e.results))
    ensures GoodImage(code, after)
  {
    hide E.SendsOf, R.CountOn;
    CompleteIsThere(im.ring, e.client);
    forall i | 0 <= i < |after.log|
      ensures Recorded(code, after.ring, after.log[i]) && (i < |im.log| ==> after.log[i].client != e.client)
    {
      if i < |im.log| {
        assert Recorded(code, im.ring, im.log[i]);
      } else {
        assert forall shard :: NumberAt(sent, shard) == R.CountOn(code.SendsOf(e.results), shard);
      }
    }
  }

  lemma ReportedPerforms<S>(code: Code<S>, n: Node<S>, phase: Phase) returns (phase2: Phase)
    requires Good(code, n, phase) && phase.Reported?
    ensures Good(code, PerformTask(code, n), phase2)
  {
    hide R.FirstOccurrences, SendsOfLog, Recorded, Disjoint, E.SendsOf, E.Stands;
    var after := PerformTask(code, n);
    phase2 := if n.todo[0].Save? then Resting else phase;
    assert n.todo == [n.todo[0]] + after.todo;
    forall k | 0 <= k < |after.todo| ensures after.todo[k].Save? || after.todo[k].Free? {
      assert after.todo[k] == n.todo[k + 1];
    }
  }

  lemma NextIsGood<S>(code: Code<S>, n: Node<S>, move: Move, phase: Phase) returns (phase2: Phase)
    requires Good(code, n, phase) && Enabled(code, n, move)
    ensures Good(code, Next(code, n, move), phase2)
  {
    if move.Crash? {
      phase2 := CrashIsGood(code, n, move, phase);
    } else if move.Perform? {
      match phase
      case Resting => phase2 := RestingPerforms(code, n);
      case Owing(_, _) =>
        OwingPerforms(code, n, phase);
        phase2 := Sending(phase.client, phase.reached, 0, n.todo[1..]);
      case Sending(c, reached, made, rest) =>
        if made < |Owed(code, n, c)| {
          SendingOne(code, n, phase);
          phase2 := Sending(c, if made < reached then reached else made + 1, made + 1, rest);
        } else {
          SendingReports(code, n, phase);
          phase2 := Reported(c);
        }
      case Reported(_) => phase2 := ReportedPerforms(code, n, phase);
    } else {
      phase2 := Resting;
      if !move.Checkpoint? {
        ArrivalIsGood(code, n, move);
      }
    }
  }

  // ---- Whole runs -----------------------------------------------------------------------------------------

  lemma StartIsGood<S>(code: Code<S>, n: Node<S>)
    requires IsStart(n)
    ensures Good(code, n, Resting)
  {
    assert R.StampAll([]) == [];
  }

  lemma {:induction false} RunIsGood<S(!new)>(code: Code<S>, states: seq<Node<S>>, moves: seq<Move>, k: nat)
    returns (phase: Phase)
    requires IsRun(code, states, moves) && k < |states|
    ensures Good(code, states[k], phase)
  {
    hide Good, Next, Enabled;
    if k == 0 {
      phase := Resting;
      StartIsGood(code, states[0]);
    } else {
      var before := RunIsGood(code, states, moves, k - 1);
      assert states[k - 1 + 1] == Next(code, states[k - 1], moves[k - 1]);
      phase := NextIsGood(code, states[k - 1], moves[k - 1], before);
    }
  }

  /** From the forced save to the report the node works on the very image it saved: a send, a report or
      an emission about to start finds state, completion records and history as they are on disk, and at
      the start of the emission the counters too. */
  lemma FrozenWhileOwed<S(!new)>(code: Code<S>, states: seq<Node<S>>, moves: seq<Move>, k: nat)
    requires IsRun(code, states, moves) && k < |states|
    requires states[k].todo != []
             && (states[k].todo[0].Emit? || states[k].todo[0].SendOut? || states[k].todo[0].Report?)
    ensures IsFrozen(states[k])
    ensures states[k].todo[0].Emit? ==> states[k].live == states[k].durable
  {
    var phase := RunIsGood(code, states, moves, k);
    hide SendsOfLog, Seen, E.Stands, E.SendsOf, GoodImage, OnlyComplete, NoneComplete;
  }

  /** A checkpoint holds at most one complete client that has not reported, so a recheck after a restart
      visits the same clients in any order. */
  lemma AtMostOneOwed<S(!new)>(code: Code<S>, states: seq<Node<S>>, moves: seq<Move>, k: nat, c: ClientId, d: ClientId)
    requires IsRun(code, states, moves) && k < |states|
    requires states[k].durable.ring.Complete(c) && states[k].durable.ring.Complete(d)
    ensures c == d
  {
    var phase := RunIsGood(code, states, moves, k);
    hide SendsOfLog, Seen, E.Stands, E.SendsOf, GoodImage;
  }

  /** Between messages the consumers, repetitions dropped, have seen exactly one emission of each client
      in the history: its results, in order, each on its own route, under the stamps of a run without
      crashes. What the client reported to the ring is what was sent, unless it was aborted since. */
  lemma EachEmittedOnce<S(!new)>(code: Code<S>, states: seq<Node<S>>, moves: seq<Move>, k: nat)
    requires IsRun(code, states, moves) && k < |states| && states[k].todo == []
    ensures R.FirstOccurrences(states[k].published) == R.StampAll(SendsOfLog(code, states[k].live.log))
    ensures forall i, j ::
              0 <= i < j < |states[k].live.log| ==> states[k].live.log[i].client != states[k].live.log[j].client
    ensures forall i :: 0 <= i < |states[k].live.log| ==> Recorded(code, states[k].live.ring, states[k].live.log[i])
  {
    var phase := RunIsGood(code, states, moves, k);
    hide SendsOfLog, R.FirstOccurrences, E.Stands, E.SendsOf, Recorded, Outs;
    var n := states[k];
    assert R.StampAll(Behind(code, n))[..|Behind(code, n)|] == R.StampAll(Behind(code, n));
  }

  /** At every other moment they have seen the emissions behind the checkpoint and the beginning of the
      one it owes. */
  lemma SeenIsABeginning<S(!new)>(code: Code<S>, states: seq<Node<S>>, moves: seq<Move>, k: nat)
    returns (more: seq<R.Send>)
    requires IsRun(code, states, moves) && k < |states|
    ensures more == [] || exists c :: states[k].durable.ring.Complete(c) && more == Owed(code, states[k], c)
    ensures exists reached ::
      |Behind(code, states[k])| <= reached && Seen(states[k].published, Behind(code, states[k]) + more, reached)
  {
    var phase := RunIsGood(code, states, moves, k);
    hide SendsOfLog, R.FirstOccurrences, E.Stands, E.SendsOf, Recorded, Outs, R.StampAll, GoodImage, NoneComplete;
    var n := states[k];
    if phase.Resting? {
      more := [];
      assert Behind(code, n) + [] == Behind(code, n);
      assert Seen(n.published, Behind(code, n) + more, |Behind(code, n)|);
    } else {
      more := Owed(code, n, phase.client);
      if phase.Reported? {
        SendsOfLogSnoc(code, n.durable.log, Emission(phase.client, code.results(n.durable.state, phase.client)));
      }
      assert Seen(n.published, Behind(code, n) + more,
                  |Behind(code, n)| + if phase.Reported? then |more| else phase.reached);
    }
  }

  // ---- A report made again -----------------------------------------------------------------------------

  /** A node about to report a client has counted exactly the sends that its checkpoint owes. */
  lemma ReportIsOwed<S(!new)>(code: Code<S>, states: seq<Node<S>>, moves: seq<Move>, k: nat, c: ClientId)
    requires IsRun(code, states, moves) && k < |states| && states[k].todo != [] && states[k].todo[0] == Report(c)
    ensures states[k].durable.ring.Complete(c)
    ensures E.Stands(states[k].sent, Owed(code, states[k], c))
    ensures E.Stands(states[k].live.counters, Behind(code, states[k]) + Owed(code, states[k], c))
  {
    var phase := RunIsGood(code, states, moves, k);
    hide SendsOfLog, Seen, E.Stands, E.SendsOf, GoodImage, NoneComplete;
    var owed := Owed(code, states[k], phase.client);
    AllMade(owed, phase.made, [Report(phase.client)] + phase.rest, states[k].todo);
    assert owed[..|owed|] == owed;
  }

  lemma AllMade(owed: seq<R.Send>, made: nat, rest: seq<Task>, todo: seq<Task>)
    requires made <= |owed| && rest != [] && todo != [] && todo[0].Report?
    requires todo == Outs(owed[made..]) + rest
    ensures made == |owed|
  {
    FirstOut(owed[made..], rest);
  }

  lemma FirstOut(sends: seq<R.Send>, rest: seq<Task>)
    requires rest != []
    ensures sends == [] || (Outs(sends) + rest)[0].SendOut?
  {}

  ghost predicate Logged(log: seq<Emission>, c: ClientId) {
    exists i :: 0 <= i < |log| && log[i].client == c
  }

  /** What a checkpoint owes it owes until a checkpoint has the emission behind it. */
  lemma OwedStays<S>(code: Code<S>, n: Node<S>, move: Move, phase: Phase, c: ClientId)
    requires Good(code, n, phase) && Enabled(code, n, move)
    ensures n.durable.log <= Next(code, n, move).durable.log
    ensures n.durable.ring.Complete(c) ==>
              Next(code, n, move).durable == n.durable || Logged(Next(code, n, move).durable.log, c)
  {
    hide SendsOfLog, Seen, E.Stands, E.SendsOf, GoodImage, C.OnToken, C.OnData, C.OnUpstreamEof, C.ReportSent;
    if phase.Reported? && move.Perform? && n.todo[0].Save? {
      assert n.live.log[|n.durable.log|].client == phase.client;
    }
  }

  /** A client in the history is not complete any more. */
  lemma LoggedIsOver<S>(code: Code<S>, im: Image<S>, c: ClientId)
    requires GoodImage(code, im) && Logged(im.log, c)
    ensures !im.ring.Complete(c)
  {
    var i :| 0 <= i < |im.log| && im.log[i].client == c;
    assert Recorded(code, im.ring, im.log[i]);
  }

  lemma LoggedMore(a: seq<Emission>, b: seq<Emission>, c: ClientId)
    requires a <= b && Logged(a, c)
    ensures Logged(b, c)
  {
    var i :| 0 <= i < |a| && a[i].client == c;
    assert b[i].client == c;
  }

  lemma {:induction false} OwedUntil<S(!new)>(code: Code<S>, states: seq<Node<S>>, moves: seq<Move>, i: nat, j: nat,
                                              c: ClientId)
    requires IsRun(code, states, moves) && i <= j < |states| && states[i].durable.ring.Complete(c)
    ensures states[j].durable == states[i].durable || Logged(states[j].durable.log, c)
    decreases j
  {
    hide Good, Next, Enabled, Logged;
    if i < j {
      OwedUntil(code, states, moves, i, j - 1, c);
      var phase := RunIsGood(code, states, moves, j - 1);
      assert states[j - 1 + 1] == Next(code, states[j - 1], moves[j - 1]);
      OwedStays(code, states[j - 1], moves[j - 1], phase, c);
      if Logged(states[j - 1].durable.log, c) {
        LoggedMore(states[j - 1].durable.log, states[j].durable.log, c);
      }
    }
  }

  /** Two reports of one client, with any crashes between them, carry the same counts: so a report that
      a crash took back, but that is in a token already, is made again as it was. */
  lemma ReportsAgree<S(!new)>(code: Code<S>, states: seq<Node<S>>, moves: seq<Move>, i: nat, j: nat, c: ClientId)
    requires IsRun(code, states, moves) && i <= j < |states|
    requires states[i].todo != [] && states[i].todo[0] == Report(c)
    requires states[j].todo != [] && states[j].todo[0] == Report(c)
    ensures forall shard :: NumberAt(states[i].sent, shard) == NumberAt(states[j].sent, shard)
  {
    hide Good, Next, Enabled, R.CountOn;
    ReportIsOwed(code, states, moves, i, c);
    ReportIsOwed(code, states, moves, j, c);
    OwedUntil(code, states, moves, i, j, c);
    if Logged(states[j].durable.log, c) {
      var phase := RunIsGood(code, states, moves, j);
      LoggedIsOver(code, states[j].durable, c) by { GoodOnDisk(code, states[j], phase); }
    }
  }

  lemma GoodOnDisk<S>(code: Code<S>, n: Node<S>, phase: Phase)
    requires Good(code, n, phase)
    ensures GoodImage(code, n.durable)
  {}

  // ---- A client that aborts ----------------------------------------------------------------------------

  ghost predicate Forgotten(ring: C.State, c: ClientId) {
    c in ring.aborted && c !in ring.clients
  }

  /** The client is tombstoned, live and on disk, and nothing is left to be emitted or reported for it. */
  ghost predicate Silenced<S>(n: Node<S>, c: ClientId) {
    && Forgotten(n.live.ring, c) && Forgotten(n.durable.ring, c)
    && Emit(c) !in n.todo && Report(c) !in n.todo
  }

  lemma RingForgets(place: C.Place, s: C.State, d: ClientId, expected: int, t: C.Token, sent: Counts, c: ClientId)
    requires Forgotten(s, c)
    ensures Forgotten(C.OnData(s, d).state, c) && Forgotten(C.OnUpstreamEof(s, d, expected).state, c)
    ensures C.OnUpstreamEof(s, c, expected).actions == []
    ensures Forgotten(C.OnToken(place, s, t).state, c)
    ensures d != c ==> Forgotten(C.ReportSent(place, s, d, sent).state, c)
  {
    hide C.Totals;
  }

  lemma StaysSilenced<S>(code: Code<S>, n: Node<S>, move: Move, c: ClientId)
    requires Enabled(code, n, move) && Silenced(n, c)
    ensures Silenced(Next(code, n, move), c)
  {
    hide C.OnData, C.OnUpstreamEof, C.OnToken, C.ReportSent, E.SendsOf;
    match move
    case DataArrives(m) =>
      RingForgets(code.place, n.live.ring, m.client, 0, C.Token(c, 0, map[]), map[], c);
    case EofArrives(d, expected) =>
      RingForgets(code.place, n.live.ring, d, expected, C.Token(c, 0, map[]), map[], c);
    case TokenArrives(t) =>
      RingForgets(code.place, n.live.ring, c, 0, t, map[], c);
    case AbortArrives(d) =>
    case Checkpoint =>
    case Perform =>
      TaskStaysSilenced(code, n, c);
    case Crash(order, resolved) =>
  }

  lemma TaskStaysSilenced<S>(code: Code<S>, n: Node<S>, c: ClientId)
    requires n.todo != [] && Silenced(n, c)
    ensures Silenced(PerformTask(code, n), c)
  {
    hide C.OnData, C.OnUpstreamEof, C.OnToken, C.ReportSent, E.SendsOf;
    var task := n.todo[0];
    assert task in n.todo && forall t :: t in n.todo[1..] ==> t in n.todo;
    if task.Report? {
      RingForgets(code.place, n.live.ring, task.client, 0, C.Token(c, 0, map[]), n.sent, c);
    }
  }

  /** The abort and its save: the business state of the client is given up and the client silenced. */
  lemma AbortSilences<S>(code: Code<S>, n: Node<S>, c: ClientId)
    requires n.todo == []
    ensures var aborted := Next(code, n, AbortArrives(c));
            && aborted.todo == [Save] && aborted.live.state == code.discard(n.live.state, c)
            && Silenced(Next(code, aborted, Perform), c)
  {}

  /** After that the client is never emitted or reported, whatever arrives and however often the node dies. */
  lemma {:induction false} AbortedIsNeverEmitted<S(!new)>(code: Code<S>, states: seq<Node<S>>, moves: seq<Move>, j: nat,
                                                          k: nat, c: ClientId)
    requires IsRun(code, states, moves) && j + 2 <= k < |states|
    requires moves[j] == AbortArrives(c) && moves[j + 1] == Perform
    ensures c in states[k].live.ring.aborted && Emit(c) !in states[k].todo && Report(c) !in states[k].todo
    ensures Silenced(states[k], c)
    decreases k
  {
    hide Silenced, Next;
    if k == j + 2 {
      assert Enabled(code, states[j], moves[j]) && states[j + 1] == Next(code, states[j], moves[j]);
      assert states[j + 1 + 1] == Next(code, states[j + 1], moves[j + 1]);
      AbortSilences(code, states[j], c);
    } else {
      AbortedIsNeverEmitted(code, states, moves, j, k - 1, c);
      assert Enabled(code, states[k - 1], moves[k - 1]) && states[k - 1 + 1] == Next(code, states[k - 1], moves[k - 1]);
      StaysSilenced(code, states[k - 1], moves[k - 1], c);
    }
    SilencedIs(states[k], c);
  }

  lemma SilencedIs<S>(n: Node<S>, c: ClientId)
    requires Silenced(n, c)
    ensures c in n.live.ring.aborted && Emit(c) !in n.todo && Report(c) !in n.todo
  {}

  /** Once a client has been reported and saved its business state is given up, and nothing else changes. */
  lemma FreeGivesUp<S(!new)>(code: Code<S>, states: seq<Node<S>>, moves: seq<Move>, k: nat, c: ClientId)
    requires IsRun(code, states, moves) && k < |moves| && moves[k] == Perform && states[k].todo[0] == Free(c)
    ensures states[k + 1].live == states[k].live.(state := code.discard(states[k].live.state, c))
    ensures states[k + 1].durable == states[k].durable && states[k + 1].published == states[k].published
  {
    assert states[k + 1] == Next(code, states[k], moves[k]);
  }
}

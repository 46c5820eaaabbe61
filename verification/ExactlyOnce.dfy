/** Exactly-once processing at one stateful stage: a checkpointed node that counts its input with
    RingCompletion, under any interleaving of publications, duplicate publications, deliveries,
    checkpoints, single acks, control events, aborts and crashes. When the completion logic asks for
    a client's results, the node has applied every identity published to its shard, each once. */
module ExactlyOnce {
  import opened Common
  import opened Deduplicator
  import opened Ledger
  import RC = RingCompletion

  /** An aggregate has one input; a merge has two. */
  datatype Side = Left | Right

  /** What a control handler does to the completion state. */
  datatype Control =
    | UpstreamEof(side: Side, client: ClientId, expected: nat)
    | Reported(client: ClientId, sent: Counts)
    | TokenTaken(token: RC.Token)
    | Dropped(client: ClientId)

  /** What upstream publishes to this shard for each client, and this node's place in its own ring. */
  datatype Stage = Stage(sides: set<Side>, ids: (Side, ClientId) -> set<Id>, place: RC.Place)

  /** The completion state and the end-of-stream counts it is fed from. */
  datatype Progress = Progress(rc: RC.State, counts: map<(Side, ClientId), nat>)

  const NO_PROGRESS := Progress(RC.State(map[], {}), map[])

  function OverSides(stage: Stage, f: Side -> nat): nat {
    (if Left in stage.sides then f(Left) else 0) + (if Right in stage.sides then f(Right) else 0)
  }

  predicate AllKnown(stage: Stage, counts: map<(Side, ClientId), nat>, c: ClientId) {
    forall side :: side in stage.sides ==> (side, c) in counts
  }

  function CountOf(counts: map<(Side, ClientId), nat>, c: ClientId): Side -> nat {
    (side: Side) => if (side, c) in counts then counts[(side, c)] else 0
  }

  /** One event's effect. The combined expected count is known once every side's end-of-stream is. */
  ghost function Step(stage: Stage, s: Progress, e: Event<Control>): Progress {
    match e
    case Data(m) => s.(rc := RC.OnData(s.rc, m.client).state)
    case Control(UpstreamEof(side, c, n)) =>
      var counts := s.counts[(side, c) := n];
      Progress(if AllKnown(stage, counts, c) then RC.OnUpstreamEof(s.rc, c, OverSides(stage, CountOf(counts, c))).state
               else s.rc, counts)
    case Control(Reported(c, sent)) => s.(rc := RC.ReportSent(stage.place, s.rc, c, sent).state)
    case Control(TokenTaken(t)) => s.(rc := RC.OnToken(stage.place, s.rc, t).state)
    case Control(Dropped(c)) => Progress(RC.Drop(s.rc, c), map k | k in s.counts && k.1 != c :: s.counts[k])
  }

  /** The state after a log of events. */
  ghost function Reached(stage: Stage, log: seq<Event<Control>>): Progress {
    if log == [] then NO_PROGRESS else Step(stage, Reached(stage, log[..|log| - 1]), log[|log| - 1])
  }

  // ---- What the counts mean ----------------------------------------------------------------------

  ghost function Of(c: ClientId): Message -> nat {
    (m: Message) => if m.client == c then 1 else 0
  }

  /** Number of data messages of a client. */
  ghost function Tally(data: seq<Message>, c: ClientId): nat {
    SumOf(Of(c), data)
  }

  lemma TallySnoc(data: seq<Message>, m: Message, c: ClientId)
    ensures Tally(data + [m], c) == Tally(data, c) + (if m.client == c then 1 else 0)
  {
    SumOfConcat(Of(c), data, [m]);
    SumOfOne(Of(c), m);
  }

  /** An upstream end-of-stream carries the number of identities published to this shard, and a
      client is only reported while it is live. */
  ghost predicate Fair(stage: Stage, s: Progress, e: Event<Control>) {
    && (e.Control? && e.event.UpstreamEof? ==> e.event.expected == |stage.ids(e.event.side, e.event.client)|)
    && (e.Control? && e.event.Reported? ==> e.event.client !in s.rc.aborted)
  }

  ghost predicate FairLog(stage: Stage, log: seq<Event<Control>>) {
    log == [] || (FairLog(stage, log[..|log| - 1]) && Fair(stage, Reached(stage, log[..|log| - 1]), log[|log| - 1]))
  }

  lemma {:induction false} FairPrefix(stage: Stage, log: seq<Event<Control>>, prefix: seq<Event<Control>>)
    requires FairLog(stage, log) && prefix <= log
    ensures FairLog(stage, prefix)
  {
    if prefix != log {
      assert prefix <= log[..|log| - 1];
      FairPrefix(stage, log[..|log| - 1], prefix);
    }
  }

  function Sizes(stage: Stage, c: ClientId): Side -> nat {
    (side: Side) => |stage.ids(side, c)|
  }

  /** The counters agree with the log. */
  ghost predicate Agrees(stage: Stage, s: Progress, log: seq<Event<Control>>, c: ClientId) {
    && (forall side :: (side, c) in s.counts ==> s.counts[(side, c)] == |stage.ids(side, c)|)
    && (c !in s.rc.aborted ==> s.rc.At(c).received == Tally(DataOf(log), c))
    && (s.rc.At(c).expected >= 0 ==> s.rc.At(c).expected == OverSides(stage, Sizes(stage, c)))
    && (c in s.rc.aborted ==> c !in s.rc.clients)
  }

  /** Reports and tokens change neither counter. */
  lemma AdvanceKeepsCounters(place: RC.Place, s: RC.State, t: RC.Token, c: ClientId)
    requires t.client !in s.aborted
    ensures RC.Advance(place, s, t).state.At(c).received == s.At(c).received
    ensures RC.Advance(place, s, t).state.At(c).expected == s.At(c).expected
    ensures RC.Advance(place, s, t).state.aborted == s.aborted
    ensures c in s.aborted && c !in s.clients ==> c !in RC.Advance(place, s, t).state.clients
  {}

  lemma StepAgrees(stage: Stage, s: Progress, log: seq<Event<Control>>, e: Event<Control>, c: ClientId)
    requires Fair(stage, s, e) && forall k :: Agrees(stage, s, log, k)
    ensures Agrees(stage, Step(stage, s, e), log + [e], c)
  {
    DataOfSnoc(log, e);
    assert e.Control? ==> DataOf(log + [e]) == DataOf(log);
    assert Agrees(stage, s, log, c);
    match e
    case Data(m) =>
      TallySnoc(DataOf(log), m, c);
    case Control(UpstreamEof(side, k, n)) =>
      EofAgrees(stage, s, log, side, k, n, c);
    case Control(Reported(k, sent)) =>
      ReportKeepsCounters(stage.place, s.rc, k, sent, c);
      hide RC.ReportSent;
    case Control(TokenTaken(t)) =>
      TokenKeepsCounters(stage.place, s.rc, t, c);
      hide RC.OnToken;
    case Control(Dropped(k)) =>
  }

  lemma EofAgrees(stage: Stage, s: Progress, log: seq<Event<Control>>, side: Side, k: ClientId, n: nat, c: ClientId)
    requires Agrees(stage, s, log, c) && Agrees(stage, s, log, k) && n == |stage.ids(side, k)|
    requires DataOf(log + [Event<Control>.Control(UpstreamEof(side, k, n))]) == DataOf(log)
    ensures Agrees(stage, Step(stage, s, Event<Control>.Control(UpstreamEof(side, k, n))),
                   log + [Event<Control>.Control(UpstreamEof(side, k, n))], c)
  {
    var counts := s.counts[(side, k) := n];
    if AllKnown(stage, counts, k) {
      assert OverSides(stage, CountOf(counts, k)) == OverSides(stage, Sizes(stage, k));
    }
    hide Tally, DataOf;
  }

  lemma ReportKeepsCounters(place: RC.Place, s: RC.State, k: ClientId, sent: Counts, c: ClientId)
    requires k !in s.aborted
    ensures var after := RC.ReportSent(place, s, k, sent).state;
            && after.At(c).received == s.At(c).received && after.At(c).expected == s.At(c).expected
            && after.aborted == s.aborted && (c in s.aborted && c !in s.clients ==> c !in after.clients)
  {
    if s.At(k).phase == RC.Processing {
      var reported := s.Put(k, s.At(k).(sent := sent, phase := RC.Emitted));
      AdvanceKeepsCounters(place, reported, RC.Token(k, place.leader, map[place.node := sent]), c);
      hide RC.Advance;
    }
  }

  lemma TokenKeepsCounters(place: RC.Place, s: RC.State, t: RC.Token, c: ClientId)
    ensures var after := RC.OnToken(place, s, t).state;
            && after.At(c).received == s.At(c).received && after.At(c).expected == s.At(c).expected
            && after.aborted == s.aborted && (c in s.aborted && c !in s.clients ==> c !in after.clients)
  {
    if t.client !in s.aborted {
      var touched := s.Put(t.client, s.At(t.client));
      AdvanceKeepsCounters(place, touched, t, c);
      AdvanceKeepsCounters(place, touched, t.(sentBy := t.sentBy[place.node := s.At(t.client).sent]), c);
      hide RC.Advance;
    }
  }

  lemma {:induction false} LogAgrees(stage: Stage, log: seq<Event<Control>>, c: ClientId)
    requires FairLog(stage, log)
    ensures Agrees(stage, Reached(stage, log), log, c)
  {
    if log != [] {
      var before, last := log[..|log| - 1], log[|log| - 1];
      forall k { LogAgrees(stage, before, k); }
      assert log == before + [last];
      hide Agrees, FairLog;
      StepAgrees(stage, Reached(stage, before), before, last, c);
    }
  }

  // ---- What is expected ------------------------------------------------------------------------------

  /** The end-of-stream of this side has been handled; it may have announced no message at all. */
  ghost predicate EofIn(log: seq<Event<Control>>, side: Side, c: ClientId) {
    exists n :: Event<Control>.Control(UpstreamEof(side, c, n)) in log
  }

  ghost predicate AllEofsIn(stage: Stage, log: seq<Event<Control>>, c: ClientId) {
    forall side :: side in stage.sides ==> EofIn(log, side, c)
  }

  /** A live client expects the sum over the sides once every side's end-of-stream has been handled, and
      nothing is known before. */
  ghost predicate Expects(stage: Stage, s: Progress, log: seq<Event<Control>>, c: ClientId) {
    c !in s.rc.aborted ==>
      && (forall side :: (side, c) in s.counts <==> EofIn(log, side, c))
      && s.rc.At(c).expected == if AllEofsIn(stage, log, c) then OverSides(stage, Sizes(stage, c)) else -1
  }

  lemma EofInSnoc(log: seq<Event<Control>>, e: Event<Control>, c: ClientId)
    ensures forall side :: EofIn(log + [e], side, c) <==>
              EofIn(log, side, c) || (e.Control? && e.event.UpstreamEof? && e.event.side == side && e.event.client == c)
  {
    forall side
      ensures EofIn(log + [e], side, c) <==>
              EofIn(log, side, c) || (e.Control? && e.event.UpstreamEof? && e.event.side == side && e.event.client == c)
    {
      assert forall x :: x in log + [e] <==> x in log || x == e;
      if e.Control? && e.event.UpstreamEof? && e.event.side == side && e.event.client == c {
        assert e == Event<Control>.Control(UpstreamEof(side, c, e.event.expected));
      }
    }
  }

  lemma StepExpects(stage: Stage, s: Progress, log: seq<Event<Control>>, e: Event<Control>, c: ClientId)
    requires Fair(stage, s, e) && stage.sides != {} && Agrees(stage, s, log, c) && Expects(stage, s, log, c)
    ensures Expects(stage, Step(stage, s, e), log + [e], c)
  {
    EofInSnoc(log, e, c);
    hide EofIn;
    match e
    case Data(m) =>
    case Control(UpstreamEof(side, k, n)) =>
      if k == c {
        EofExpects(stage, s, log, side, c, n);
      }
    case Control(Reported(k, sent)) =>
      ReportKeepsCounters(stage.place, s.rc, k, sent, c);
      hide RC.ReportSent;
    case Control(TokenTaken(t)) =>
      TokenKeepsCounters(stage.place, s.rc, t, c);
      hide RC.OnToken;
    case Control(Dropped(k)) =>
  }

  lemma EofExpects(stage: Stage, s: Progress, log: seq<Event<Control>>, side: Side, c: ClientId, n: nat)
    requires n == |stage.ids(side, c)| && Agrees(stage, s, log, c) && Expects(stage, s, log, c)
    requires forall x ::
               EofIn(log + [Event<Control>.Control(UpstreamEof(side, c, n))], x, c) <==> EofIn(log, x, c) || x == side
    ensures Expects(stage, Step(stage, s, Event<Control>.Control(UpstreamEof(side, c, n))),
                    log + [Event<Control>.Control(UpstreamEof(side, c, n))], c)
  {
    hide EofIn;
    var counts := s.counts[(side, c) := n];
    if c !in s.rc.aborted && AllKnown(stage, counts, c) {
      assert OverSides(stage, CountOf(counts, c)) == OverSides(stage, Sizes(stage, c));
    }
  }

  lemma {:induction false} ExpectedIs(stage: Stage, log: seq<Event<Control>>, c: ClientId)
    requires FairLog(stage, log) && stage.sides != {}
    ensures Expects(stage, Reached(stage, log), log, c)
  {
    if log == [] {
      var side :| side in stage.sides;
      assert !EofIn(log, side, c);
    } else {
      var before, last := log[..|log| - 1], log[|log| - 1];
      ExpectedIs(stage, before, c);
      LogAgrees(stage, before, c);
      assert log == before + [last];
      hide Agrees, FairLog, Expects;
      StepExpects(stage, Reached(stage, before), before, last, c);
    }
  }

  // ---- The input --------------------------------------------------------------------------------------

  /** Data messages are stamped and belong to what upstream publishes for their client. */
  ghost predicate FromUpstream(stage: Stage, m: Message) {
    Stamped(m) && exists side :: side in stage.sides && m.id in stage.ids(side, m.client)
  }

  ghost predicate Disjoint(stage: Stage) {
    stage.sides != {} && forall c :: stage.ids(Left, c) !! stage.ids(Right, c)
  }

  /** Everything published to this shard for a client. */
  ghost function Published(stage: Stage, c: ClientId): set<Id> {
    (if Left in stage.sides then stage.ids(Left, c) else {})
      + (if Right in stage.sides then stage.ids(Right, c) else {})
  }

  /** The identities of a client among the data applied. */
  ghost function AppliedIds(data: seq<Message>, c: ClientId): set<Id> {
    set m | m in data && m.client == c :: m.id
  }

  ghost predicate EachOnce(data: seq<Message>) {
    forall i, j :: 0 <= i < j < |data| ==> data[i].id != data[j].id
  }

  /** Distinct identities are counted by their number. */
  lemma {:induction false} TallyIsCardinality(data: seq<Message>, c: ClientId)
    requires EachOnce(data)
    ensures Tally(data, c) == |AppliedIds(data, c)|
  {
    if data == [] {
      assert AppliedIds(data, c) == {};
    } else {
      var before, m := data[..|data| - 1], data[|data| - 1];
      assert data == before + [m];
      TallyIsCardinality(before, c);
      TallySnoc(before, m, c);
      forall x | x in before ensures x.id != m.id {
        var i :| 0 <= i < |before| && before[i] == x;
        assert data[i].id != data[|data| - 1].id;
      }
      assert forall x :: x in data <==> x in before || x == m;
      if m.client == c {
        assert AppliedIds(data, c) == AppliedIds(before, c) + {m.id};
      } else {
        assert AppliedIds(data, c) == AppliedIds(before, c);
      }
    }
  }

  lemma AppliedArePublished(stage: Stage, data: seq<Message>, c: ClientId)
    requires forall m :: m in data ==> FromUpstream(stage, m)
    ensures AppliedIds(data, c) <= Published(stage, c)
  {
    forall id | id in AppliedIds(data, c) ensures id in Published(stage, c) {
      var m :| m in data && m.client == c && m.id == id;
      assert FromUpstream(stage, m);
      var side :| side in stage.sides && m.id in stage.ids(side, m.client);
      assert side == Left || side == Right;
    }
  }

  lemma PublishedSize(stage: Stage, c: ClientId)
    requires Disjoint(stage)
    ensures |Published(stage, c)| == OverSides(stage, Sizes(stage, c))
  {
    assert stage.ids(Left, c) !! stage.ids(Right, c);
  }

  /** The heart of the counting argument: having received as many distinct identities as were
      published, all of them published, the node has received exactly those. */
  lemma CompleteHasEverything(stage: Stage, log: seq<Event<Control>>, c: ClientId)
    requires FairLog(stage, log) && Disjoint(stage)
    requires EachOnce(DataOf(log)) && forall m :: m in DataOf(log) ==> FromUpstream(stage, m)
    requires c !in Reached(stage, log).rc.aborted && Reached(stage, log).rc.At(c).expected >= 0
    ensures Reached(stage, log).rc.At(c).received >= Reached(stage, log).rc.At(c).expected <==>
            AppliedIds(DataOf(log), c) == Published(stage, c)
  {
    LogAgrees(stage, log, c);
    assert Reached(stage, log).rc.At(c).received == Tally(DataOf(log), c);
    assert Reached(stage, log).rc.At(c).expected == OverSides(stage, Sizes(stage, c));
    hide Reached, DataOf, Tally, FairLog, Agrees, AppliedIds, Published;
    TallyIsCardinality(DataOf(log), c);
    PublishedSize(stage, c);
    AppliedArePublished(stage, DataOf(log), c);
    SubsetOfSameSize(AppliedIds(DataOf(log), c), Published(stage, c));
  }

  // ---- The machine ------------------------------------------------------------------------------------

  datatype Move =
    | Publish(d: Delivery)
    | Take(d: Delivery)
    | AckUnneeded(d: Delivery)
    | HandleControl(event: Control)
    | Mark(client: ClientId)
    | Save
    | AckHeld
    | Crash

  /** When each effect may happen. Publications are arbitrary repetitions of what upstream has for
      this shard; everything else is this node's own code. */
  ghost predicate Enabled(stage: Stage, l: Ledger<Control>, move: Move) {
    match move
    case Publish(d) => FromUpstream(stage, d.msg) && forall m :: m in l.published && m.id == d.msg.id ==> m == d.msg
    case Take(d) =>
      && d in l.unacked && d !in l.pending && d.msg.client !in l.aborted && !l.IsDuplicate(d.msg.id)
      && (l.pending != [] ==> l.dirty)
    case AckUnneeded(d) =>
      && d in l.unacked && d !in l.pending
      && (d.msg.client in l.Durable().aborted || l.IsDuplicate(d.msg.id))
    case HandleControl(e) => Fair(stage, Reached(stage, l.applied), Event<Control>.Control(e))
    case Mark(c) => l.pending != [] ==> l.dirty
    case Save => true
    case AckHeld => l.pending != [] && !l.dirty
    case Crash => true
  }

  ghost function Next(l: Ledger<Control>, move: Move): Ledger<Control>
    requires move.AckHeld? ==> l.pending != []
  {
    match move
    case Publish(d) => l.Publish(d)
    case Take(d) => l.Apply(d)
    case AckUnneeded(d) => l.Ack(d)
    case HandleControl(e) => l.Handle(e)
    case Mark(c) => l.Mark(c)
    case Save => l.Save()
    case AckHeld => l.AckFirst()
    case Crash => l.Crash()
  }

  ghost predicate IsPath(stage: Stage, states: seq<Ledger<Control>>, moves: seq<Move>) {
    && |states| == |moves| + 1
    && forall k ::
        0 <= k < |moves| ==> Enabled(stage, states[k], moves[k]) && states[k + 1] == Next(states[k], moves[k])
  }

  ghost predicate IsRun(stage: Stage, states: seq<Ledger<Control>>, moves: seq<Move>) {
    IsPath(stage, states, moves) && states[0] == Ledger<Control>.Fresh()
  }

  ghost predicate Sound(stage: Stage, l: Ledger<Control>) {
    && Safe(l)
    && FairLog(stage, l.applied)
    && (forall m :: m in l.published ==> FromUpstream(stage, m))
  }

  lemma NextIsSound(stage: Stage, l: Ledger<Control>, move: Move)
    requires Sound(stage, l) && Enabled(stage, l, move)
    ensures Sound(stage, Next(l, move))
  {
    hide Safe, FairLog;
    match move
    case Publish(d) =>
      PublishIsSafe(l, d);
    case Take(d) =>
      ApplyIsSafe(l, d);
      FairSnoc(stage, l.applied, Data(d.msg));
    case AckUnneeded(d) =>
      ForgetIsSafe(l, d);
    case HandleControl(e) =>
      HandleIsSafe(l, e);
      FairSnoc(stage, l.applied, Event<Control>.Control(e));
    case Mark(c) =>
      MarkIsSafe(l, c);
    case Save =>
      SaveIsSafe(l);
    case AckHeld =>
      AckFirstIsSafe(l);
    case Crash =>
      CrashIsSafe(l, 1);
      DurableIsPrefix(l);
      FairPrefix(stage, l.applied, l.Durable().applied);
  }

  lemma DurableIsPrefix(l: Ledger<Control>)
    requires Safe(l)
    ensures l.Durable().applied <= l.applied
  {}

  lemma FairSnoc(stage: Stage, log: seq<Event<Control>>, e: Event<Control>)
    requires FairLog(stage, log) && Fair(stage, Reached(stage, log), e)
    ensures FairLog(stage, log + [e])
  {
    assert (log + [e])[..|log + [e]| - 1] == log;
  }

  lemma {:induction false} RunIsSound(stage: Stage, states: seq<Ledger<Control>>, moves: seq<Move>, k: nat)
    requires IsRun(stage, states, moves) && k < |states|
    ensures Sound(stage, states[k])
  {
    if k == 0 {
      FreshIsIdle<Control>(1);
    } else {
      RunIsSound(stage, states, moves, k - 1);
      assert states[k - 1 + 1] == Next(states[k - 1], moves[k - 1]);
      NextIsSound(stage, states[k - 1], moves[k - 1]);
    }
  }

  // ---- The results, over whole runs --------------------------------------------------------------------

  /** The node's completion state. */
  ghost function Rc(stage: Stage, l: Ledger<Control>): RC.State {
    Reached(stage, l.applied).rc
  }

  /** Emission is exactly-once: when the completion logic asks for the results of a live client, the
      node has applied every identity published to its shard for that client, and none twice; and a client
      whose end-of-streams have been handled and that has not been emitted is asked for if and only if so. */
  lemma EmitIsExactlyOnce(stage: Stage, states: seq<Ledger<Control>>, moves: seq<Move>, k: nat, c: ClientId)
    requires Disjoint(stage) && IsRun(stage, states, moves) && k < |states|
    requires c !in Rc(stage, states[k]).aborted
    ensures EachOnce(DataOf(states[k].applied))
    ensures Rc(stage, states[k]).Complete(c) ==> AppliedIds(DataOf(states[k].applied), c) == Published(stage, c)
    ensures Rc(stage, states[k]).Complete(c) <==>
            && Rc(stage, states[k]).At(c).phase == RC.Processing && AllEofsIn(stage, states[k].applied, c)
            && AppliedIds(DataOf(states[k].applied), c) == Published(stage, c)
  {
    RunIsSound(stage, states, moves, k);
    SoundData(stage, states[k]);
    assert FairLog(stage, states[k].applied) by { SoundIsFair(stage, states[k]); }
    hide AllEofsIn, FairLog, Reached, DataOf, AppliedIds, Published, Sound, IsRun;
    ExpectedIs(stage, states[k].applied, c);
    if Rc(stage, states[k]).At(c).expected >= 0 {
      CompleteHasEverything(stage, states[k].applied, c);
    }
  }

  /** The moment of emission: a data message of a live client that has not been emitted asks for its results if
      and only if it completes what was published, the end-of-streams being in. */
  lemma LastMessageAsks(stage: Stage, states: seq<Ledger<Control>>, moves: seq<Move>, k: nat, d: Delivery)
    requires Disjoint(stage) && IsRun(stage, states, moves) && k < |moves| && moves[k] == Take(d)
    requires d.msg.client !in Rc(stage, states[k]).aborted
    ensures RC.Emit(d.msg.client) in RC.OnData(Rc(stage, states[k]), d.msg.client).actions <==>
            && Rc(stage, states[k]).At(d.msg.client).phase == RC.Processing
            && AllEofsIn(stage, states[k].applied, d.msg.client)
            && AppliedIds(DataOf(states[k].applied) + [d.msg], d.msg.client) == Published(stage, d.msg.client)
  {
    var l, c := states[k], d.msg.client;
    assert states[k + 1] == Next(l, moves[k]) == l.Apply(d);
    ReachedSnoc(stage, l.applied, Data(d.msg));
    DataOfSnoc(l.applied, Data(d.msg));
    EofInSnoc(l.applied, Data(d.msg), c);
    EmitIsExactlyOnce(stage, states, moves, k + 1, c);
    hide Reached, DataOf, AppliedIds, Published, IsRun, EofIn;
  }

  /** The end-of-stream that makes the expected count known asks for the results of a live client that has not
      been emitted if and only if everything published has been applied by then. */
  lemma LastEofAsks(stage: Stage, states: seq<Ledger<Control>>, moves: seq<Move>, k: nat, side: Side, c: ClientId,
                    n: nat)
    requires Disjoint(stage) && IsRun(stage, states, moves) && k < |moves|
    requires moves[k] == HandleControl(UpstreamEof(side, c, n))
    requires c !in Rc(stage, states[k]).aborted
    ensures var counts := Reached(stage, states[k].applied).counts[(side, c) := n];
            AllKnown(stage, counts, c) <==> AllEofsIn(stage, states[k + 1].applied, c)
    ensures var counts := Reached(stage, states[k].applied).counts[(side, c) := n];
            AllKnown(stage, counts, c) ==>
              (RC.Emit(c) in RC.OnUpstreamEof(Rc(stage, states[k]), c,
                                              OverSides(stage, CountOf(counts, c))).actions <==>
               && Rc(stage, states[k]).At(c).phase == RC.Processing
               && AppliedIds(DataOf(states[k].applied), c) == Published(stage, c))
  {
    hide *;
    EofIsNext(stage, states, moves, k, UpstreamEof(side, c, n));
    var l, e := states[k], Event<Control>.Control(UpstreamEof(side, c, n));
    var s := Reached(stage, l.applied);
    DataOfSnoc(l.applied, e);
    assert DataOf(states[k + 1].applied) == DataOf(l.applied);
    ReachedByEof(stage, l.applied, side, c, n);
    ExpectedIs(stage, l.applied, c);
    RcIs(stage, l);
    RcIs(stage, states[k + 1]);
    KnownAfter(stage, s, l.applied, side, c, n);
    EofAsksIfComplete(s.rc, c, OverSides(stage, CountOf(s.counts[(side, c) := n], c)));
    EmitIsExactlyOnce(stage, states, moves, k + 1, c);
  }

  lemma EofIsNext(stage: Stage, states: seq<Ledger<Control>>, moves: seq<Move>, k: nat, e: Control)
    requires IsRun(stage, states, moves) && k < |moves| && moves[k] == HandleControl(e) && Disjoint(stage)
    ensures |states| == |moves| + 1 && stage.sides != {}
    ensures states[k + 1].applied == states[k].applied + [Event<Control>.Control(e)]
            && FairLog(stage, states[k].applied)
  {
    RunIsSound(stage, states, moves, k);
    assert states[k + 1] == Next(states[k], moves[k]);
    hide FairLog, Safe;
  }

  lemma RcIs(stage: Stage, l: Ledger<Control>)
    ensures Rc(stage, l) == Reached(stage, l.applied).rc
  {}

  lemma ReachedByEof(stage: Stage, log: seq<Event<Control>>, side: Side, c: ClientId, n: nat)
    ensures var s, counts := Reached(stage, log), Reached(stage, log).counts[(side, c) := n];
            Reached(stage, log + [Event<Control>.Control(UpstreamEof(side, c, n))]).rc
            == if AllKnown(stage, counts, c)
               then RC.OnUpstreamEof(s.rc, c, OverSides(stage, CountOf(counts, c))).state else s.rc
  {
    ReachedSnoc(stage, log, Event<Control>.Control(UpstreamEof(side, c, n)));
    hide Reached, RC.OnUpstreamEof;
  }

  lemma KnownAfter(stage: Stage, s: Progress, log: seq<Event<Control>>, side: Side, c: ClientId, n: nat)
    requires Expects(stage, s, log, c) && c !in s.rc.aborted
    ensures AllKnown(stage, s.counts[(side, c) := n], c)
       <==> AllEofsIn(stage, log + [Event<Control>.Control(UpstreamEof(side, c, n))], c)
  {
    EofInSnoc(log, Event<Control>.Control(UpstreamEof(side, c, n)), c);
    hide EofIn;
  }

  lemma EofAsksIfComplete(s: RC.State, c: ClientId, expected: int)
    requires c !in s.aborted
    ensures var o := RC.OnUpstreamEof(s, c, expected);
            && (RC.Emit(c) in o.actions <==> o.state.Complete(c))
            && o.state.At(c).phase == s.At(c).phase && o.state.aborted == s.aborted
  {}

  lemma ReachedSnoc(stage: Stage, log: seq<Event<Control>>, e: Event<Control>)
    ensures Reached(stage, log + [e]) == Step(stage, Reached(stage, log), e)
  {
    assert (log + [e])[..|log + [e]| - 1] == log;
  }

  lemma SoundData(stage: Stage, l: Ledger<Control>)
    requires Sound(stage, l)
    ensures EachOnce(DataOf(l.applied)) && forall m :: m in DataOf(l.applied) ==> FromUpstream(stage, m)
  {
    var data := DataOf(l.applied);
    forall m | m in data ensures FromUpstream(stage, m) {
      assert m in l.published;
    }
    forall i, j | 0 <= i < j < |data| ensures data[i].id != data[j].id {
      assert data[i] in data;
      assert FromUpstream(stage, data[i]);
    }
  }

  /** Acked effects are never lost: at every point of a run, between a save and its acks included, a
      published message is durable, or the broker will deliver it again, or its client was durably
      aborted; and nothing is recorded live that is neither durable nor held. */
  lemma NothingPublishedIsLost(stage: Stage, states: seq<Ledger<Control>>, moves: seq<Move>, k: nat, m: Message)
    requires IsRun(stage, states, moves) && k < |states| && m in states[k].published
    ensures Accounted(states[k], m)
    ensures m.id in states[k].seen ==> m.id in states[k].Durable().seen || Pending(states[k], m.id)
  {
    RunIsSound(stage, states, moves, k);
    assert FromUpstream(stage, m);
  }

  /** Completion is reached: once everything is published for a live client whose end-of-streams are
      durable, and the broker holds no more deliveries of it, a restart finds its input complete; see also
      RestartAsks. */
  lemma QuietMeansComplete(stage: Stage, states: seq<Ledger<Control>>, moves: seq<Move>, k: nat, c: ClientId)
    requires Disjoint(stage) && IsRun(stage, states, moves) && k < |states|
    requires forall id :: id in Published(stage, c) ==> exists m ::
               m in states[k].published && m.id == id && m.client == c
    requires forall d :: d in states[k].unacked ==> d.msg.client != c
    requires c !in states[k].Durable().aborted && c !in Rc(stage, states[k].Crash()).aborted
    requires AllEofsIn(stage, states[k].Crash().applied, c)
    ensures c in Rc(stage, states[k].Crash()).clients
    ensures var client := Rc(stage, states[k].Crash()).clients[c];
            0 <= client.expected == OverSides(stage, Sizes(stage, c)) <= client.received
  {
    hide *;
    RunLength(stage, states, moves);
    var l := states[k];
    var restored := l.Crash();
    DisjointHasSides(stage);
    CrashedIsSound(stage, states, moves, k);
    forall id | id in Published(stage, c) ensures id in AppliedIds(DataOf(restored.applied), c) {
      DurablyApplied(stage, l, id, c);
    }
    AppliedArePublished(stage, DataOf(restored.applied), c);
    RcIs(stage, restored);
    ExpectedIs(stage, restored.applied, c);
    ExpectsAll(stage, Reached(stage, restored.applied), restored.applied, c);
    CompleteHasEverything(stage, restored.applied, c);
  }

  lemma RunLength(stage: Stage, states: seq<Ledger<Control>>, moves: seq<Move>)
    requires IsRun(stage, states, moves)
    ensures |states| == |moves| + 1
  {}

  lemma DisjointHasSides(stage: Stage)
    requires Disjoint(stage)
    ensures stage.sides != {}
  {}

  lemma CrashedIsSound(stage: Stage, states: seq<Ledger<Control>>, moves: seq<Move>, k: nat)
    requires IsRun(stage, states, moves) && k < |states|
    ensures Sound(stage, states[k]) && FairLog(stage, states[k].Crash().applied)
    ensures EachOnce(DataOf(states[k].Crash().applied))
    ensures forall m :: m in DataOf(states[k].Crash().applied) ==> FromUpstream(stage, m)
  {
    RunIsSound(stage, states, moves, k);
    NextIsSound(stage, states[k], Crash);
    SoundData(stage, states[k].Crash());
    SoundIsFair(stage, states[k].Crash());
    hide Sound, FairLog, DataOf, EachOnce, FromUpstream;
  }

  lemma ExpectsAll(stage: Stage, s: Progress, log: seq<Event<Control>>, c: ClientId)
    requires Expects(stage, s, log, c) && AllEofsIn(stage, log, c) && c !in s.rc.aborted
    ensures c in s.rc.clients && 0 <= s.rc.clients[c].expected == OverSides(stage, Sizes(stage, c))
    ensures s.rc.At(c) == s.rc.clients[c]
  {}

  /** So a restart, which takes its completion state from the checkpoint and rechecks it, asks for the results
      of such a client, unless it had emitted them. */
  method RestartAsks(stage: Stage, ghost states: seq<Ledger<Control>>, ghost moves: seq<Move>, ghost k: nat,
                     rc: RC.RingCompletion, saved: RC.State, c: ClientId) returns (actions: seq<RC.Action>)
    requires Disjoint(stage) && IsRun(stage, states, moves) && k < |states|
    requires forall id :: id in Published(stage, c) ==> exists m ::
               m in states[k].published && m.id == id && m.client == c
    requires forall d :: d in states[k].unacked ==> d.msg.client != c
    requires c !in states[k].Durable().aborted && c !in Rc(stage, states[k].Crash()).aborted
    requires AllEofsIn(stage, states[k].Crash().applied, c) && saved == Rc(stage, states[k].Crash())
    modifies rc
    ensures RC.Emit(c) in actions <==> saved.At(c).phase == RC.Processing
  {
    QuietMeansComplete(stage, states, moves, k, c);
    hide Rc;
    rc.Restore(saved);
    actions := rc.Recheck();
  }

  lemma SoundIsFair(stage: Stage, l: Ledger<Control>)
    requires Sound(stage, l)
    ensures FairLog(stage, l.applied)
  {}

  lemma DurablyApplied(stage: Stage, l: Ledger<Control>, id: Id, c: ClientId)
    requires Sound(stage, l) && c !in l.Durable().aborted
    requires exists m :: m in l.published && m.id == id && m.client == c
    requires forall d :: d in l.unacked ==> d.msg.client != c
    ensures id in AppliedIds(DataOf(l.Crash().applied), c)
  {
    var m :| m in l.published && m.id == id && m.client == c;
    assert FromUpstream(stage, m) && Accounted(l, m);
    forall d | d in l.unacked ensures d.msg.id != m.id {
      assert d.msg in l.published;
    }
    assert id in l.Durable().seen;
    var applied :| applied in DataOf(l.Durable().applied) && applied.id == id;
    assert applied in DataOf(l.applied) && applied in l.published;
    assert applied == m;
  }
}

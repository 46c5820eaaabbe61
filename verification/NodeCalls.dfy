/** The node's routes as runs of the exactly-once machine. Each call of the checkpointer is a number of the
    machine's single effects, so any sequence of calls is one of its runs and every result about runs holds
    of it; between the effects of a call the process may still die. */
module NodeCalls {
  import opened Common
  import opened Deduplicator
  import opened Ledger
  import opened ExactlyOnce

  /** Some effects lead from one state to the other. */
  ghost predicate Leads(stage: Stage, a: Ledger<Control>, b: Ledger<Control>) {
    exists states, moves :: IsPath(stage, states, moves) && states[0] == a && states[|moves|] == b
  }

  lemma LeadsNowhere(stage: Stage, a: Ledger<Control>)
    ensures Leads(stage, a, a)
  {
    var moves: seq<Move> := [];
    assert IsPath(stage, [a], moves) && [a][0] == a && [a][|moves|] == a;
  }

  lemma LeadsOn(stage: Stage, a: Ledger<Control>, b: Ledger<Control>, move: Move)
    requires Leads(stage, a, b) && Enabled(stage, b, move)
    ensures Leads(stage, a, Next(b, move))
  {
    hide Next;
    var states, moves :| IsPath(stage, states, moves) && states[0] == a && states[|moves|] == b;
    var states2, moves2 := states + [Next(b, move)], moves + [move];
    forall k | 0 <= k < |moves2|
      ensures Enabled(stage, states2[k], moves2[k]) && states2[k + 1] == Next(states2[k], moves2[k])
    {
      if k < |moves| {
        assert states2[k] == states[k] && states2[k + 1] == states[k + 1] && moves2[k] == moves[k];
      }
    }
    assert IsPath(stage, states2, moves2) && states2[0] == a && states2[|moves2|] == Next(b, move);
  }

  // ---- One call ----------------------------------------------------------------------------------------

  lemma {:induction false} AcksArePath(stage: Stage, a: Ledger<Control>, l: Ledger<Control>)
    requires Leads(stage, a, l) && (l.pending != [] ==> !l.dirty)
    ensures Leads(stage, a, l.AckAll())
    decreases |l.pending|
  {
    hide Leads;
    if l.pending != [] {
      LeadsOn(stage, a, l, AckHeld);
      AcksArePath(stage, a, l.AckFirst());
    }
  }

  lemma FlushIsPath(stage: Stage, a: Ledger<Control>, l: Ledger<Control>, force: bool)
    requires Leads(stage, a, l) && (l.pending != [] ==> l.dirty)
    ensures Leads(stage, a, l.Flush(force))
  {
    hide Leads;
    if l.dirty || force {
      LeadsOn(stage, a, l, Move.Save);
      AcksArePath(stage, a, l.Save());
    } else {
      AcksArePath(stage, a, l);
    }
  }

  /** One data message: an ack at once, or an application and, when the batch is full, a save and its acks. */
  lemma HandleDataIsPath(stage: Stage, a: Ledger<Control>, l: Ledger<Control>, d: Delivery, every: nat)
    requires Leads(stage, a, l) && Idle(l, every) && d in l.unacked && d !in l.pending
    ensures Leads(stage, a, l.HandleData(d, every))
  {
    hide Leads, Safe, Ledger.Flush;
    if d.msg.client in l.aborted || l.IsDuplicate(d.msg.id) {
      LeadsOn(stage, a, l, AckUnneeded(d));
    } else {
      LeadsOn(stage, a, l, Take(d));
      if |l.Apply(d).pending| >= every {
        FlushIsPath(stage, a, l.Apply(d), false);
      }
    }
  }

  lemma EventIsPath(stage: Stage, a: Ledger<Control>, l: Ledger<Control>, e: Control)
    requires Leads(stage, a, l) && Fair(stage, Reached(stage, l.applied), Event<Control>.Control(e))
    ensures Leads(stage, a, l.Handle(e))
  {
    hide Leads, Fair, Reached;
    LeadsOn(stage, a, l, HandleControl(e));
  }

  lemma FlushKeepsLog(l: Ledger<Control>, force: bool)
    requires Safe(l) && (l.pending != [] ==> l.dirty)
    ensures l.Flush(force).applied == l.applied && l.Flush(force).pending == [] && Safe(l.Flush(force))
  {
    FlushIsSafe(l, force);
    hide Safe;
  }

  ghost function Handled(l: Ledger<Control>, e: Control): Ledger<Control> {
    l.Handle(e).Flush(true)
  }

  lemma HandledIsPath(stage: Stage, a: Ledger<Control>, l: Ledger<Control>, e: Control)
    requires Leads(stage, a, l) && Safe(l) && l.pending == []
    requires Fair(stage, Reached(stage, l.applied), Event<Control>.Control(e))
    ensures Leads(stage, a, Handled(l, e)) && Safe(Handled(l, e))
    ensures Handled(l, e).pending == [] && Handled(l, e).applied == l.applied + [Event<Control>.Control(e)]
  {
    hide Leads, Safe, Fair, Reached, Ledger.Flush;
    EventIsPath(stage, a, l, e);
    HandleIsSafe(l, e);
    FlushIsPath(stage, a, l.Handle(e), true);
    FlushKeepsLog(l.Handle(e), true);
  }

  /** A control message: a flush, the handler, a forced flush, what the handler did then, a forced flush. */
  lemma HandleControlIsPath(stage: Stage, a: Ledger<Control>, l: Ledger<Control>, arrival: Control,
                            report: Option<Control>,
                            every: nat)
    requires Leads(stage, a, l) && Idle(l, every)
    requires Fair(stage, Reached(stage, l.applied), Event<Control>.Control(arrival))
    requires report.Some? ==> Fair(stage, Reached(stage, l.applied + [Event<Control>.Control(arrival)]),
                                   Event<Control>.Control(report.value))
    ensures Leads(stage, a, l.HandleControl(arrival, report))
  {
    hide Leads, Safe, Fair, Reached, Ledger.Flush, Ledger.Handle;
    FlushIsPath(stage, a, l, false);
    FlushKeepsLog(l, false);
    HandledIsPath(stage, a, l.Flush(false), arrival);
    if report.Some? {
      HandledIsPath(stage, a, Handled(l.Flush(false), arrival), report.value);
    }
  }

  lemma HandleAbortIsPath(stage: Stage, a: Ledger<Control>, l: Ledger<Control>, c: ClientId, every: nat)
    requires Leads(stage, a, l) && Idle(l, every)
    ensures Leads(stage, a, l.HandleAbort(c, Dropped(c)))
  {
    hide Leads, Safe, Reached, Ledger.Flush;
    EventIsPath(stage, a, l, Dropped(c));
    LeadsOn(stage, a, l.Handle(Dropped(c)), Mark(c));
    FlushIsPath(stage, a, l.Handle(Dropped(c)).Mark(c), true);
  }

  // ---- Any calls ---------------------------------------------------------------------------------------

  /** A publication by upstream, a call of the node, or its death and restart. */
  datatype Call =
    | Arrives(d: Delivery)
    | OnData(d: Delivery)
    | OnControl(arrival: Control, report: Option<Control>)
    | OnAbort(client: ClientId)
    | Restarts

  ghost function After(l: Ledger<Control>, call: Call, every: nat): Ledger<Control> {
    match call
    case Arrives(d) => l.Publish(d)
    case OnData(d) => l.HandleData(d, every)
    case OnControl(arrival, report) => l.HandleControl(arrival, report)
    case OnAbort(c) => l.HandleAbort(c, Dropped(c))
    case Restarts => l.Crash()
  }

  /** What is published is upstream's, what is handled is the broker's, and control messages are fair. */
  ghost predicate Allowed(stage: Stage, l: Ledger<Control>, call: Call) {
    match call
    case Arrives(d) => Enabled(stage, l, Publish(d))
    case OnData(d) => d in l.unacked && d !in l.pending
    case OnControl(arrival, report) =>
      && Fair(stage, Reached(stage, l.applied), Event<Control>.Control(arrival))
      && (report.Some? ==> Fair(stage, Reached(stage, l.applied + [Event<Control>.Control(arrival)]),
                                Event<Control>.Control(report.value)))
    case OnAbort(c) => true
    case Restarts => true
  }

  lemma CallIsPath(stage: Stage, a: Ledger<Control>, l: Ledger<Control>, call: Call, every: nat)
    requires Leads(stage, a, l) && Idle(l, every) && every > 0 && Allowed(stage, l, call)
    ensures Leads(stage, a, After(l, call, every))
  {
    match call
    case Arrives(d) => LeadsOn(stage, a, l, Publish(d));
    case OnData(d) => HandleDataIsPath(stage, a, l, d, every);
    case OnControl(arrival, report) => HandleControlIsPath(stage, a, l, arrival, report, every);
    case OnAbort(c) => HandleAbortIsPath(stage, a, l, c, every);
    case Restarts => LeadsOn(stage, a, l, Move.Crash);
    hide *;
  }

  lemma SettledIsIdle(l: Ledger<Control>, every: nat)
    requires Safe(l) && (l.pending != [] ==> l.dirty) && every > 0
    ensures Idle(l.Flush(true), every)
  {
    FlushIsSafe(l, true);
    hide Safe;
  }

  lemma FlushedIsIdle(l: Ledger<Control>, every: nat)
    requires Idle(l, every)
    ensures Idle(l.Flush(false), every) && l.Flush(false).pending == []
  {
    FlushIsSafe(l, false);
    hide Safe;
  }

  lemma CallKeepsIdle(stage: Stage, l: Ledger<Control>, call: Call, every: nat)
    requires Idle(l, every) && every > 0 && Allowed(stage, l, call)
    ensures Idle(After(l, call, every), every)
  {
    hide Safe, Fair, Reached, Ledger.Flush, Ledger.HandleData;
    match call
    case Arrives(d) =>
      PublishIsSafe(l, d);
    case OnData(d) =>
      HandleDataIsSafe(l, d, every);
    case OnControl(arrival, report) =>
      FlushedIsIdle(l, every);
      HandleIsSafe(l.Flush(false), arrival);
      SettledIsIdle(l.Flush(false).Handle(arrival), every);
      if report.Some? {
        var handled := l.Flush(false).Handle(arrival).Flush(true);
        HandleIsSafe(handled, report.value);
        SettledIsIdle(handled.Handle(report.value), every);
      }
    case OnAbort(c) =>
      HandleIsSafe(l, Dropped(c));
      MarkIsSafe(l.Handle(Dropped(c)), c);
      SettledIsIdle(l.Handle(Dropped(c)).Mark(c), every);
    case Restarts =>
      CrashIsSafe(l, every);
  }

  ghost predicate IsHistory(stage: Stage, every: nat, states: seq<Ledger<Control>>, calls: seq<Call>) {
    && every > 0 && |states| == |calls| + 1 && states[0] == Ledger<Control>.Fresh()
    && forall k ::
        0 <= k < |calls| ==> Allowed(stage, states[k], calls[k]) && states[k + 1] == After(states[k], calls[k], every)
  }

  /** Any history of calls is a run of the machine, and between calls the node is idle. */
  lemma {:induction false} CallsAreARun(stage: Stage, every: nat, states: seq<Ledger<Control>>, calls: seq<Call>,
                                        k: nat)
    requires IsHistory(stage, every, states, calls) && k <= |calls|
    ensures Leads(stage, Ledger<Control>.Fresh(), states[k]) && Idle(states[k], every)
  {
    hide Leads, Idle, Allowed, After;
    if k == 0 {
      LeadsNowhere(stage, states[0]);
      FreshIsIdle<Control>(every);
    } else {
      CallsAreARun(stage, every, states, calls, k - 1);
      assert states[k - 1 + 1] == After(states[k - 1], calls[k - 1], every);
      CallIsPath(stage, Ledger<Control>.Fresh(), states[k - 1], calls[k - 1], every);
      CallKeepsIdle(stage, states[k - 1], calls[k - 1], every);
    }
  }

  /** So, whatever is called in whatever order with whatever deaths between: a live client is complete if and only
      if it was not emitted, its end-of-streams are in and exactly what was published has been applied. */
  lemma CallsAreExactlyOnce(stage: Stage, every: nat, states: seq<Ledger<Control>>, calls: seq<Call>, k: nat,
                            c: ClientId)
    requires Disjoint(stage) && IsHistory(stage, every, states, calls) && k <= |calls|
    requires c !in Rc(stage, states[k]).aborted
    ensures EachOnce(DataOf(states[k].applied))
    ensures Rc(stage, states[k]).Complete(c) <==>
            && Rc(stage, states[k]).At(c).phase.Processing? && AllEofsIn(stage, states[k].applied, c)
            && AppliedIds(DataOf(states[k].applied), c) == Published(stage, c)
  {
    hide *;
    HistoryLength(stage, every, states, calls);
    CallsAreARun(stage, every, states, calls, k);
    var inner, moves := RunTo(stage, states[k]);
    EmitIsExactlyOnce(stage, inner, moves, |moves|, c);
  }

  lemma HistoryLength(stage: Stage, every: nat, states: seq<Ledger<Control>>, calls: seq<Call>)
    requires IsHistory(stage, every, states, calls)
    ensures |states| == |calls| + 1
  {}

  lemma RunTo(stage: Stage, l: Ledger<Control>) returns (states: seq<Ledger<Control>>, moves: seq<Move>)
    requires Leads(stage, Ledger<Control>.Fresh(), l)
    ensures IsRun(stage, states, moves) && |states| == |moves| + 1 && states[|moves|] == l
  {
    hide Enabled, Next;
    states, moves :| IsPath(stage, states, moves) && states[0] == Ledger<Control>.Fresh() && states[|moves|] == l;
  }
}

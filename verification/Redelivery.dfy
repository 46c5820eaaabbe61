/** Runs in which a crash falls at the worst moment, so that what the results about runs say is needed: a message
    is taken twice and still counted once, an output is published twice under one number, and a result
    is emitted twice. */
module Redelivery {
  import opened Common
  import opened Deduplicator
  import opened Ledger
  import R = Replay
  import E = Emission
  import F = FrozenEmission
  import C = RingCompletion
  import X = ExactlyOnce

  const CLIENT: ClientId := 7
  const ID := Id(Producer(1), 1)
  const MESSAGE := Message(CLIENT, ID, 5)
  const DELIVERY := Delivery(0, MESSAGE)

  // ---- A message taken twice ---------------------------------------------------------------------------

  const STAGE := X.Stage({X.Left}, (side, c) => if side == X.Left && c == CLIENT then {ID} else {}, C.Place(1, 1, 1))
  const EOF := X.UpstreamEof(X.Left, CLIENT, 1)

  const L0 := Ledger<X.Control>.Fresh()
  const L1 := L0.Publish(DELIVERY)
  const L2 := L1.Apply(DELIVERY)
  const L3 := L2.Crash()
  const L4 := L3.Handle(EOF)
  const L5 := L4.Apply(DELIVERY)

  lemma Publication()
    ensures X.Enabled(STAGE, L0, X.Publish(DELIVERY)) && X.Next(L0, X.Publish(DELIVERY)) == L1
    ensures X.Enabled(STAGE, L1, X.Take(DELIVERY)) && X.Next(L1, X.Take(DELIVERY)) == L2
  {
    assert X.Left in STAGE.sides && ID in STAGE.ids(X.Left, CLIENT);
  }

  lemma Death()
    ensures X.Enabled(STAGE, L2, X.Crash) && X.Next(L2, X.Crash) == L3 && L3.applied == []
    ensures X.Enabled(STAGE, L3, X.HandleControl(EOF)) && X.Next(L3, X.HandleControl(EOF)) == L4
  {
    hide X.Reached;
  }

  lemma SecondTaking()
    ensures X.Enabled(STAGE, L4, X.Take(DELIVERY)) && X.Next(L4, X.Take(DELIVERY)) == L5
    ensures L5.applied == [Event<X.Control>.Control(EOF), Data(MESSAGE)]
  {}

  lemma AppliedOnce()
    ensures DataOf(L5.applied) == [MESSAGE] && X.Rc(STAGE, L5).Complete(CLIENT)
  {
    SecondTaking();
    var eof := [Event<X.Control>.Control(EOF)];
    assert eof + [Data(MESSAGE)] == L5.applied && [] + eof == eof;
    X.ReachedSnoc(STAGE, [], Event<X.Control>.Control(EOF));
    X.ReachedSnoc(STAGE, eof, Data(MESSAGE));
    DataOfSnoc<X.Control>([], Event<X.Control>.Control(EOF));
    DataOfSnoc(eof, Data(MESSAGE));
    hide L5;
  }

  /** The only message is applied, the process dies with its ack still held, the end-of-stream comes, and the
      message is delivered and applied again: the client is complete, with the message applied once. */
  lemma TakenTwice() returns (states: seq<Ledger<X.Control>>, moves: seq<X.Move>)
    ensures X.IsRun(STAGE, states, moves) && |moves| == 5
    ensures moves[1] == moves[4] == X.Take(DELIVERY) && moves[2] == X.Crash
    ensures DataOf(states[5].applied) == [MESSAGE] && X.Rc(STAGE, states[5]).Complete(CLIENT)
  {
    hide X.Enabled, X.Next, X.Rc, DataOf, L1, L2, L3, L4, L5, STAGE;
    Publication();
    Death();
    SecondTaking();
    AppliedOnce();
    states := [L0, L1, L2, L3, L4, L5];
    moves := [X.Publish(DELIVERY), X.Take(DELIVERY), X.Crash, X.HandleControl(EOF), X.Take(DELIVERY)];
  }

  // ---- An output published twice -----------------------------------------------------------------------

  const ONE_OUTPUT: R.Behaviour := (log: seq<Message>, m: Message) => [R.Send(0, m.body)]

  const OTHER := Message(CLIENT, Id(Producer(1), 2), 6)
  const FIRST := R.DataItem(MESSAGE)
  const SECOND := R.DataItem(OTHER)
  const ONE := R.Image([MESSAGE], {ID}, {})
  const BOTH := R.Image([MESSAGE, OTHER], {ID, OTHER.id}, {})

  lemma FirstOutput()
    ensures R.OutputsOf(ONE_OUTPUT, [], MESSAGE) == [R.Output(0, 1, 5)]
    ensures R.Sends(ONE_OUTPUT, [MESSAGE]) == [R.Send(0, 5)]
  {
    assert R.Sends(ONE_OUTPUT, []) == [];
    assert [MESSAGE][..0] == [] && R.Sends(ONE_OUTPUT, [MESSAGE]) == [] + [R.Send(0, 5)];
    assert [] + [MESSAGE] == [MESSAGE] && [] + [R.Send(0, 5)] == [R.Send(0, 5)];
    R.CountOnSnoc([], R.Send(0, 5), 0);
    assert [R.Send(0, 5)][..1] == [R.Send(0, 5)];
    assert R.StampAll([R.Send(0, 5)])[0] == R.StampAt([R.Send(0, 5)], 0) == R.Output(0, 1, 5);
  }

  lemma SecondOutput()
    ensures R.OutputsOf(ONE_OUTPUT, [MESSAGE], OTHER) == [R.Output(0, 2, 6)]
  {
    FirstOutput();
    var before, all := [R.Send(0, 5)], [R.Send(0, 5), R.Send(0, 6)];
    assert [MESSAGE] + [OTHER] == [MESSAGE, OTHER] && [MESSAGE, OTHER][..1] == [MESSAGE];
    assert R.Sends(ONE_OUTPUT, [MESSAGE, OTHER]) == before + [R.Send(0, 6)] == all;
    assert [] + [R.Send(0, 5)] == before;
    R.CountOnSnoc([], R.Send(0, 5), 0);
    R.CountOnSnoc(before, R.Send(0, 6), 0);
    assert all[..2] == all;
    assert R.StampAll(all)[1] == R.StampAt(all, 1) == R.Output(0, 2, 6);
    hide R.CountOn;
  }

  /** Both messages on the queue, with nothing taken and with the first taken. */
  function Restarted(outputs: seq<R.Output>): R.Node {
    R.Node(R.EMPTY, R.EMPTY, [FIRST, SECOND], 0, outputs, [FIRST, SECOND])
  }

  function AtSecond(outputs: seq<R.Output>): R.Node {
    R.Node(ONE, R.EMPTY, [FIRST, SECOND], 1, outputs, [FIRST, SECOND])
  }

  lemma Published()
    ensures var s0, s1 := R.Node(R.EMPTY, R.EMPTY, [], 0, [], []), R.Node(R.EMPTY, R.EMPTY, [FIRST], 0, [], [FIRST]);
            && R.Enabled(s0, ONE_OUTPUT, R.Publish(FIRST)) && R.Next(s0, ONE_OUTPUT, R.Publish(FIRST)) == s1
            && R.Enabled(s1, ONE_OUTPUT, R.Publish(SECOND))
            && R.Next(s1, ONE_OUTPUT, R.Publish(SECOND)) == Restarted([])
  {}

  lemma TakeFirst(outputs: seq<R.Output>)
    ensures R.Enabled(Restarted(outputs), ONE_OUTPUT, R.Take)
    ensures R.Next(Restarted(outputs), ONE_OUTPUT, R.Take) == AtSecond(outputs + [R.Output(0, 1, 5)])
  {
    hide R.OutputsOf, R.Sends;
    FirstOutput();
  }

  lemma TakeSecond(outputs: seq<R.Output>)
    ensures R.Enabled(AtSecond(outputs), ONE_OUTPUT, R.Take)
    ensures R.Next(AtSecond(outputs), ONE_OUTPUT, R.Take)
         == R.Node(BOTH, R.EMPTY, [FIRST, SECOND], 2, outputs + [R.Output(0, 2, 6)], [FIRST, SECOND])
  {
    hide R.OutputsOf, R.Sends;
    SecondOutput();
  }

  lemma DieTakingSecond(outputs: seq<R.Output>)
    ensures R.Enabled(AtSecond(outputs), ONE_OUTPUT, R.CrashWhileTaking(1))
    ensures R.Next(AtSecond(outputs), ONE_OUTPUT, R.CrashWhileTaking(1)) == Restarted(outputs + [R.Output(0, 2, 6)])
  {
    hide R.OutputsOf, R.Sends;
    SecondOutput();
  }

  lemma Die(outputs: seq<R.Output>)
    ensures R.Enabled(AtSecond(outputs), ONE_OUTPUT, R.Crash)
    ensures R.Next(AtSecond(outputs), ONE_OUTPUT, R.Crash) == Restarted(outputs)
  {}

  /** A node sends two outputs and dies, once while it sends and once after; nothing was saved, so all the
      messages come again, and with them the outputs, under the numbers they had. */
  lemma PublishedAgain() returns (states: seq<R.Node>, moves: seq<R.Move>)
    ensures R.IsRun(ONE_OUTPUT, states, moves) && |moves| == 8
    ensures moves[3].CrashWhileTaking? && moves[5].Crash?
    ensures states[8].live == BOTH
    ensures states[8].outputs
            == [R.Output(0, 1, 5), R.Output(0, 2, 6), R.Output(0, 1, 5), R.Output(0, 1, 5), R.Output(0, 2, 6)]
  {
    hide R.Enabled, R.Next;
    var a, b, none, items := R.Output(0, 1, 5), R.Output(0, 2, 6), R.EMPTY, [FIRST, SECOND];
    var s0 := R.Node(none, none, [], 0, [], []);
    var s1 := R.Node(none, none, [FIRST], 0, [], [FIRST]);
    var s2, s3, s4 := Restarted([]), AtSecond([a]), Restarted([a, b]);
    var s5, s6, s7 := AtSecond([a, b, a]), Restarted([a, b, a]), AtSecond([a, b, a, a]);
    var s8 := R.Node(BOTH, none, items, 2, [a, b, a, a, b], items);
    Published();
    TakeFirst([]);
    DieTakingSecond([a]);
    TakeFirst([a, b]);
    Die([a, b, a]);
    TakeFirst([a, b, a]);
    TakeSecond([a, b, a, a]);
    states := [s0, s1, s2, s3, s4, s5, s6, s7, s8];
    moves := [R.Publish(FIRST), R.Publish(SECOND), R.Take, R.CrashWhileTaking(1), R.Take, R.Crash, R.Take, R.Take];
  }

  // ---- A result emitted twice --------------------------------------------------------------------------

  const ONE_RESULT: F.Code<int> := F.Code(
    (s, m) => s, (s, c) => [Routed(5, 0)], (s, c) => s, C.Place(1, 2, 2), 1, false)
  const SEND := R.Send(0, 5)
  const ONCE := [R.Output(0, 1, 5)]

  const IDLE := C.State(map[], {})
  const READY := C.State(map[CLIENT := C.Client(0, 0, map[], C.Processing)], {})
  const START: F.Image<int> := F.Image(0, IDLE, map[], [])
  const OWING: F.Image<int> := F.Image(0, READY, map[], [])
  const SENDING: F.Image<int> := F.Image(0, READY, map[0 := 1], [])

  const N0 := F.Node(START, START, [], map[], [])
  const N1 := F.Node(OWING, START, [F.Save, F.Emit(CLIENT), F.Save, F.Free(CLIENT)], map[], [])
  const N2 := F.Node(OWING, OWING, [F.Emit(CLIENT), F.Save, F.Free(CLIENT)], map[], [])
  const N3 := F.Node(OWING, OWING, [F.SendOut(SEND), F.Report(CLIENT), F.Save, F.Free(CLIENT)], map[], [])
  const N4 := F.Node(SENDING, OWING, [F.Report(CLIENT), F.Save, F.Free(CLIENT)], map[0 := 1], ONCE)
  const N5 := F.Node(OWING, OWING, [F.Emit(CLIENT), F.Save], map[0 := 1], ONCE)
  const N6 := F.Node(OWING, OWING, [F.SendOut(SEND), F.Report(CLIENT), F.Save], map[], ONCE)
  const N7 := F.Node(SENDING, OWING, [F.Report(CLIENT), F.Save], map[0 := 1], ONCE + ONCE)

  lemma ItsSends()
    ensures ONE_RESULT.SendsOf(ONE_RESULT.results(0, CLIENT)) == [SEND]
  {
    assert E.SendsOf([], 1, false) == [] && [Routed(5, 0)][..0] == [];
  }

  lemma Completion()
    ensures F.Enabled(ONE_RESULT, N0, F.EofArrives(CLIENT, 0)) && F.Next(ONE_RESULT, N0, F.EofArrives(CLIENT, 0)) == N1
  {}

  lemma ForcedSave()
    ensures F.Enabled(ONE_RESULT, N1, F.Perform) && F.Next(ONE_RESULT, N1, F.Perform) == N2
  {}

  lemma FirstEmission()
    ensures F.Enabled(ONE_RESULT, N2, F.Perform) && F.Next(ONE_RESULT, N2, F.Perform) == N3
  {
    hide F.Code.SendsOf;
    ItsSends();
    assert F.Outs([SEND]) == [F.SendOut(SEND)];
  }

  lemma FirstSend()
    ensures F.Enabled(ONE_RESULT, N3, F.Perform) && F.Next(ONE_RESULT, N3, F.Perform) == N4
  {}

  lemma DeathWhileOwing()
    ensures F.Enabled(ONE_RESULT, N4, F.Crash([CLIENT], [])) && F.Next(ONE_RESULT, N4, F.Crash([CLIENT], [])) == N5
  {
    assert F.Emits([CLIENT]) == [F.Emit(CLIENT)] && F.Frees([]) == [];
  }

  lemma SecondEmission()
    ensures F.Enabled(ONE_RESULT, N5, F.Perform) && F.Next(ONE_RESULT, N5, F.Perform) == N6
  {
    hide F.Code.SendsOf;
    ItsSends();
    assert F.Outs([SEND]) == [F.SendOut(SEND)];
  }

  lemma SecondSend()
    ensures F.Enabled(ONE_RESULT, N6, F.Perform) && F.Next(ONE_RESULT, N6, F.Perform) == N7
  {}

  /** A node of an empty input sends its one result and dies before it reports; after the restart it sends the
      result again, under the same number. */
  lemma EmittedTwice() returns (states: seq<F.Node<int>>, moves: seq<F.Move>)
    ensures F.IsRun(ONE_RESULT, states, moves) && |moves| == 7
    ensures moves[4].Crash? && states[7].published == [R.Output(0, 1, 5), R.Output(0, 1, 5)]
  {
    hide F.Enabled, F.Next, N1, N2, N3, N4, N5, N6, ONE_RESULT;
    Completion();
    ForcedSave();
    FirstEmission();
    FirstSend();
    DeathWhileOwing();
    SecondEmission();
    SecondSend();
    states := [N0, N1, N2, N3, N4, N5, N6, N7];
    moves := [F.EofArrives(CLIENT, 0), F.Perform, F.Perform, F.Perform, F.Crash([CLIENT], []), F.Perform, F.Perform];
  }
}

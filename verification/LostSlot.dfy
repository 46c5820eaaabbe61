/** A run in which the leader's slot of a circulating token is lost.

    Two peers, 1 and 2, report one message to shard 0 for client 7. The leader emits, forwards its
    token and is rolled back to before its last input. A full token then closes the client while the
    leader's record is still PROCESSING and empty, and an older copy of the token has its slot
    overwritten by that record. The end-of-stream already sent is exact, and the damaged token
    cannot close the client again because the closing is durable. */
module LostSlot {
  import opened Common
  import opened RingCompletion
  import opened Barrier

  const ONE_MESSAGE: Counts := map[0 := 1]
  const PAIR := Ring({1, 2}, 1, (p, c) => ONE_MESSAGE)

  function Record(expected: int, received: nat, sent: Counts, phase: Phase): State {
    State(map[7 := Client(expected, received, sent, phase)], {})
  }

  const IDLE := Node(State(map[], {}), State(map[], {}), [], false)
  const WAITING := Record(1, 0, map[], Processing)
  const REPORTED := Record(0, 0, ONE_MESSAGE, Emitted)
  const EARLY := Token(7, 1, map[1 := ONE_MESSAGE])
  const FULL := Token(7, 1, map[1 := ONE_MESSAGE, 2 := ONE_MESSAGE])
  const WRONG := Token(7, 1, map[1 := map[]])

  function Both(first: Node, second: Node, tokens: set<Token>, published: set<Result>, eofs: seq<Action>,
                crashes: nat): Cluster
  {
    Cluster(map[1 := first, 2 := second], tokens, published, eofs, crashes)
  }

  /** A run ends in this state. */
  ghost predicate Reachable(ring: Ring, s: Cluster) {
    exists start :: IsStart(ring, start) && Leads(ring, start, s)
  }

  lemma OneMore(ring: Ring, s: Cluster, step: Step)
    requires Reachable(ring, s) && Enabled(s, step)
    ensures Reachable(ring, Next(ring, s, step))
  {
    hide Leads, Next, Enabled;
    var start :| IsStart(ring, start) && Leads(ring, start, s);
    LeadsOn(ring, start, s, step);
  }

  /** A pair of nodes and what they have put on the network. */
  datatype Scene = Scene(tokens: set<Token>, published: set<Result>, eofs: seq<Action>, crashes: nat) {
    function With(first: Node, second: Node): Cluster {
      Both(first, second, tokens, published, eofs, crashes)
    }
  }

  ghost predicate Follows(before: Scene, e: Effect, crashed: bool, after: Scene) {
    && after.tokens == before.tokens + e.tokens && after.published == before.published + e.published
    && after.eofs == before.eofs + e.eofs && after.crashes == before.crashes + (if crashed then 1 else 0)
  }

  /** The leader, peer 1, takes a step. */
  lemma LeaderMoves(first: Node, second: Node, before: Scene, step: Step, e: Effect, after: Scene)
    requires Reachable(PAIR, before.With(first, second))
    requires step.peer == 1 && Enabled(before.With(first, second), step)
    requires Moves(PAIR, first, step) == e && Follows(before, e, step.Crash?, after)
    ensures Reachable(PAIR, after.With(e.node, second))
  {
    OneMore(PAIR, before.With(first, second), step);
    hide Moves, Reachable, Enabled;
    assert Next(PAIR, before.With(first, second), step) == after.With(e.node, second);
  }

  lemma OtherMoves(first: Node, second: Node, before: Scene, step: Step, e: Effect, after: Scene)
    requires Reachable(PAIR, before.With(first, second))
    requires step.peer == 2 && Enabled(before.With(first, second), step)
    requires Moves(PAIR, second, step) == e && Follows(before, e, false, after)
    ensures Reachable(PAIR, after.With(first, e.node))
  {
    OneMore(PAIR, before.With(first, second), step);
    hide Moves, Reachable, Enabled;
    assert Next(PAIR, before.With(first, second), step) == after.With(first, e.node);
  }

  function Quiet(node: Node): Effect {
    Effect(node, {}, {}, [])
  }

  const NOTHING := State(map[], {})
  const RECEIVED := Record(1, 1, map[], Processing)
  const LEADER_REPORTED := Record(1, 1, ONE_MESSAGE, Emitted)
  const EMPTY := Record(0, 0, map[], Processing)
  ghost const EXACT_EOF := DownstreamEof(7, Totals(FULL.sentBy))
  const LEADER_DONE := Record(1, 0, map[], Done)

  lemma LeaderEffects()
    ensures Moves(PAIR, IDLE, Arrive(1, EofArrives(7, 1))) == Quiet(Node(WAITING, NOTHING, [], true))
    ensures Moves(PAIR, Node(WAITING, NOTHING, [], true), Save(1)) == Quiet(Node(WAITING, WAITING, [], false))
    ensures Moves(PAIR, Node(WAITING, WAITING, [], false), Arrive(1, DataArrives(7)))
            == Quiet(Node(RECEIVED, WAITING, [Do(Emit(7))], false))
    ensures Moves(PAIR, Node(RECEIVED, WAITING, [Do(Emit(7))], false), Perform(1))
         == Effect(Node(RECEIVED, WAITING, [Report(7)], false), {}, {Result(1, 7)}, [])
    ensures Moves(PAIR, Node(LEADER_REPORTED, WAITING, [Do(Forward(EARLY))], false), Perform(1))
         == Effect(Node(LEADER_REPORTED, WAITING, [], false), {EARLY}, {}, [])
    ensures Moves(PAIR, Node(LEADER_REPORTED, WAITING, [], false), Crash(1, []))
            == Quiet(Node(WAITING, WAITING, [], true))
    ensures Moves(PAIR, Node(WAITING, WAITING, [], true), Save(1)) == Quiet(Node(WAITING, WAITING, [], false))
  {
    hide ReportSent, OnToken;
  }

  lemma LeaderReports()
    ensures Moves(PAIR, Node(RECEIVED, WAITING, [Report(7)], false), Perform(1))
         == Quiet(Node(LEADER_REPORTED, WAITING, [Do(Forward(EARLY))], false))
  {
    assert ReportSent(PAIR.PlaceOf(1), RECEIVED, 7, ONE_MESSAGE) == Outcome(LEADER_REPORTED, [Forward(EARLY)]);
    hide ReportSent;
    assert Tasks([Forward(EARLY)]) == [Do(Forward(EARLY))];
  }

  const SCENE_0 := Scene({}, {}, [], 0)
  const SCENE_1 := Scene({}, {Result(1, 7)}, [], 0)
  const SCENE_2 := Scene({EARLY}, {Result(1, 7)}, [], 0)
  const SCENE_3 := Scene({EARLY}, {Result(1, 7)}, [], 1)
  const SCENE_4 := Scene({EARLY}, {Result(1, 7), Result(2, 7)}, [], 1)
  const SCENE_5 := Scene({EARLY, FULL}, {Result(1, 7), Result(2, 7)}, [], 1)
  ghost const SCENE_6 := Scene({EARLY, FULL}, {Result(1, 7), Result(2, 7)}, [EXACT_EOF], 1)
  ghost const SCENE_7 := Scene({EARLY, FULL, WRONG}, {Result(1, 7), Result(2, 7)}, [EXACT_EOF], 1)

  lemma PairStarts()
    ensures Reachable(PAIR, SCENE_0.With(IDLE, IDLE))
  {
    LeadsNowhere(PAIR, SCENE_0.With(IDLE, IDLE));
  }

  lemma LeaderIsRolledBack()
    ensures Reachable(PAIR, SCENE_3.With(Node(WAITING, WAITING, [], false), IDLE))
  {
    PairStarts();
    LeaderEffects();
    LeaderReports();
    hide Moves, Reachable;
    LeaderMoves(IDLE, IDLE, SCENE_0, Arrive(1, EofArrives(7, 1)), Quiet(Node(WAITING, NOTHING, [], true)), SCENE_0);
    LeaderMoves(Node(WAITING, NOTHING, [], true), IDLE, SCENE_0, Save(1), Quiet(Node(WAITING, WAITING, [], false)),
                SCENE_0);
    LeaderMoves(Node(WAITING, WAITING, [], false), IDLE, SCENE_0, Arrive(1, DataArrives(7)),
                Quiet(Node(RECEIVED, WAITING, [Do(Emit(7))], false)), SCENE_0);
    LeaderMoves(Node(RECEIVED, WAITING, [Do(Emit(7))], false), IDLE, SCENE_0, Perform(1),
                Effect(Node(RECEIVED, WAITING, [Report(7)], false), {}, {Result(1, 7)}, []), SCENE_1);
    LeaderMoves(Node(RECEIVED, WAITING, [Report(7)], false), IDLE, SCENE_1, Perform(1),
                Quiet(Node(LEADER_REPORTED, WAITING, [Do(Forward(EARLY))], false)), SCENE_1);
    LeaderMoves(Node(LEADER_REPORTED, WAITING, [Do(Forward(EARLY))], false), IDLE, SCENE_1, Perform(1),
                Effect(Node(LEADER_REPORTED, WAITING, [], false), {EARLY}, {}, []), SCENE_2);
    LeaderMoves(Node(LEADER_REPORTED, WAITING, [], false), IDLE, SCENE_2, Crash(1, []),
                Quiet(Node(WAITING, WAITING, [], true)), SCENE_3);
    LeaderMoves(Node(WAITING, WAITING, [], true), IDLE, SCENE_3, Save(1), Quiet(Node(WAITING, WAITING, [], false)),
                SCENE_3);
  }

  lemma OtherEffects()
    ensures Moves(PAIR, IDLE, Arrive(2, EofArrives(7, 0))) == Quiet(Node(EMPTY, NOTHING, [Do(Emit(7))], true))
    ensures Moves(PAIR, Node(EMPTY, NOTHING, [Do(Emit(7))], true), Perform(2))
            == Effect(Node(EMPTY, NOTHING, [Report(7)], true), {}, {Result(2, 7)}, [])
    ensures Moves(PAIR, Node(EMPTY, NOTHING, [Report(7)], true), Perform(2)) == Quiet(Node(REPORTED, NOTHING, [], true))
    ensures Moves(PAIR, Node(REPORTED, NOTHING, [], true), Save(2)) == Quiet(Node(REPORTED, REPORTED, [], false))
    ensures Moves(PAIR, Node(REPORTED, REPORTED, [Do(Forward(FULL))], true), Perform(2))
            == Effect(Node(REPORTED, REPORTED, [], true), {FULL}, {}, [])
    ensures Moves(PAIR, Node(REPORTED, REPORTED, [], true), Save(2)) == Quiet(Node(REPORTED, REPORTED, [], false))
  {
    hide OnToken, Advance;
    assert Tasks([Emit(7)]) == [Do(Emit(7))];
    assert Tasks([]) == [];
  }

  lemma OtherForwards()
    ensures Moves(PAIR, Node(REPORTED, REPORTED, [], false), Arrive(2, TokenArrives(EARLY)))
         == Quiet(Node(REPORTED, REPORTED, [Do(Forward(FULL))], true))
  {
    assert OnToken(PAIR.PlaceOf(2), REPORTED, EARLY) == Outcome(REPORTED, [Forward(FULL)]);
    hide OnToken;
    assert Tasks([Forward(FULL)]) == [Do(Forward(FULL))];
  }

  lemma OtherPeerFillsTheToken()
    ensures Reachable(PAIR, SCENE_5.With(Node(WAITING, WAITING, [], false), Node(REPORTED, REPORTED, [], false)))
  {
    LeaderIsRolledBack();
    OtherEffects();
    OtherForwards();
    hide Moves, Reachable;
    var one := Node(WAITING, WAITING, [], false);
    OtherMoves(one, IDLE, SCENE_3, Arrive(2, EofArrives(7, 0)), Quiet(Node(EMPTY, NOTHING, [Do(Emit(7))], true)),
               SCENE_3);
    OtherMoves(one, Node(EMPTY, NOTHING, [Do(Emit(7))], true), SCENE_3, Perform(2),
               Effect(Node(EMPTY, NOTHING, [Report(7)], true), {}, {Result(2, 7)}, []), SCENE_4);
    OtherMoves(one, Node(EMPTY, NOTHING, [Report(7)], true), SCENE_4, Perform(2),
               Quiet(Node(REPORTED, NOTHING, [], true)), SCENE_4);
    OtherMoves(one, Node(REPORTED, NOTHING, [], true), SCENE_4, Save(2), Quiet(Node(REPORTED, REPORTED, [], false)),
               SCENE_4);
    OtherMoves(one, Node(REPORTED, REPORTED, [], false), SCENE_4, Arrive(2, TokenArrives(EARLY)),
               Quiet(Node(REPORTED, REPORTED, [Do(Forward(FULL))], true)), SCENE_4);
    OtherMoves(one, Node(REPORTED, REPORTED, [Do(Forward(FULL))], true), SCENE_4, Perform(2),
               Effect(Node(REPORTED, REPORTED, [], true), {FULL}, {}, []), SCENE_5);
    OtherMoves(one, Node(REPORTED, REPORTED, [], true), SCENE_5, Save(2), Quiet(Node(REPORTED, REPORTED, [], false)),
               SCENE_5);
  }

  lemma LeaderCloses()
    ensures Moves(PAIR, Node(WAITING, WAITING, [], false), Arrive(1, TokenArrives(FULL)))
         == Quiet(Node(LEADER_DONE, WAITING, [Do(EXACT_EOF)], true))
  {
    hide Totals;
    assert |FULL.sentBy| == 2;
    assert OnToken(PAIR.PlaceOf(1), WAITING, FULL) == Outcome(LEADER_DONE, [EXACT_EOF]);
    hide OnToken;
    assert Tasks([EXACT_EOF]) == [Do(EXACT_EOF)];
  }

  lemma LeaderOverwrites()
    ensures Moves(PAIR, Node(LEADER_DONE, LEADER_DONE, [], false), Arrive(1, TokenArrives(EARLY)))
         == Quiet(Node(LEADER_DONE, LEADER_DONE, [Do(Forward(WRONG))], true))
  {
    assert EARLY.sentBy[1 := map[]] == WRONG.sentBy;
    assert OnToken(PAIR.PlaceOf(1), LEADER_DONE, EARLY) == Outcome(LEADER_DONE, [Forward(WRONG)]);
    hide OnToken;
    assert Tasks([Forward(WRONG)]) == [Do(Forward(WRONG))];
  }

  lemma LastEffects()
    ensures Moves(PAIR, Node(LEADER_DONE, WAITING, [Do(EXACT_EOF)], true), Perform(1))
            == Effect(Node(LEADER_DONE, WAITING, [], true), {}, {}, [EXACT_EOF])
    ensures Moves(PAIR, Node(LEADER_DONE, WAITING, [], true), Save(1))
            == Quiet(Node(LEADER_DONE, LEADER_DONE, [], false))
    ensures Moves(PAIR, Node(LEADER_DONE, LEADER_DONE, [Do(Forward(WRONG))], true), Perform(1))
            == Effect(Node(LEADER_DONE, LEADER_DONE, [], true), {WRONG}, {}, [])
  {
    hide Totals;
  }

  lemma DamagedTokenIsForwarded()
    ensures Reachable(PAIR, SCENE_7.With(Node(LEADER_DONE, LEADER_DONE, [], true), Node(REPORTED, REPORTED, [], false)))
  {
    OtherPeerFillsTheToken();
    LeaderCloses();
    LeaderOverwrites();
    LastEffects();
    hide Moves, Reachable, Totals;
    var two := Node(REPORTED, REPORTED, [], false);
    LeaderMoves(Node(WAITING, WAITING, [], false), two, SCENE_5, Arrive(1, TokenArrives(FULL)),
                Quiet(Node(LEADER_DONE, WAITING, [Do(EXACT_EOF)], true)), SCENE_5);
    LeaderMoves(Node(LEADER_DONE, WAITING, [Do(EXACT_EOF)], true), two, SCENE_5, Perform(1),
                Effect(Node(LEADER_DONE, WAITING, [], true), {}, {}, [EXACT_EOF]), SCENE_6);
    LeaderMoves(Node(LEADER_DONE, WAITING, [], true), two, SCENE_6, Save(1),
                Quiet(Node(LEADER_DONE, LEADER_DONE, [], false)), SCENE_6);
    LeaderMoves(Node(LEADER_DONE, LEADER_DONE, [], false), two, SCENE_6, Arrive(1, TokenArrives(EARLY)),
                Quiet(Node(LEADER_DONE, LEADER_DONE, [Do(Forward(WRONG))], true)), SCENE_6);
    LeaderMoves(Node(LEADER_DONE, LEADER_DONE, [Do(Forward(WRONG))], true), two, SCENE_6, Perform(1),
                Effect(Node(LEADER_DONE, LEADER_DONE, [], true), {WRONG}, {}, []), SCENE_7);
  }

  /** A token in flight whose leader slot is not what the leader reported. */
  lemma LeaderSlotCanBeLost()
    ensures exists s :: Reachable(PAIR, s) && WRONG in s.tokens && WRONG.sentBy[1] != PAIR.sent(1, 7)
  {
    DamagedTokenIsForwarded();
    hide Reachable;
    assert 0 in ONE_MESSAGE;
    assert WRONG in SCENE_7.With(Node(LEADER_DONE, LEADER_DONE, [], true), Node(REPORTED, REPORTED, [], false)).tokens;
  }
}

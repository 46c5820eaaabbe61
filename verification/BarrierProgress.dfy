/** Barrier progress: how many deliveries a token can survive, and what ends it. */
module BarrierProgress {
  import opened Common
  import opened RingCompletion
  import opened RingOrder

  /** A stage handling nothing but one completion token: its peers' completion states, the token if
      it is still circulating, the peer it waits at, and the end-of-streams sent downstream. */
  datatype Stage = Stage(
    peers: set<Peer>,
    leader: Peer,
    states: map<Peer, State>,
    token: Option<Token>,
    at: Peer,
    eofs: seq<Action>)
  {
    function PlaceOf(p: Peer): Place {
      Place(p, |peers|, leader)
    }
  }

  ghost predicate IsStage(st: Stage) {
    st.leader in st.peers && st.at in st.peers && st.states.Keys == st.peers
  }

  ghost function Forwarded(actions: seq<Action>): Option<Token> {
    if actions != [] && actions[0].Forward? then Some(actions[0].token) else None
  }

  ghost function Closings(actions: seq<Action>): seq<Action> {
    if actions != [] && actions[0].DownstreamEof? then [actions[0]] else []
  }

  /** A peer takes an outcome as its own and hands what is forwarded to its front neighbour. */
  ghost function Take(st: Stage, p: Peer, o: Outcome): Stage
    requires IsStage(st) && p in st.peers
  {
    st.(states := st.states[p := o.state], token := Forwarded(o.actions), at := FrontOf(st.peers, p),
        eofs := st.eofs + Closings(o.actions))
  }

  /** One delivery of the token, to the peer it waits at. */
  ghost function Deliver(st: Stage): (after: Stage)
    requires IsStage(st)
    ensures IsStage(after)
  {
    if st.token.None? then st
    else Take(st, st.at, OnToken(st.PlaceOf(st.at), st.states[st.at], st.token.value))
  }

  ghost function Travel(st: Stage, n: nat): (after: Stage)
    requires IsStage(st)
    ensures IsStage(after)
  {
    if n == 0 then st else Deliver(Travel(st, n - 1))
  }

  lemma {:induction false} StaysResolved(st: Stage, n: nat, m: nat)
    requires IsStage(st) && n <= m && Travel(st, n).token.None?
    ensures Travel(st, m) == Travel(st, n)
    decreases m
  {
    if n < m {
      StaysResolved(st, n, m - 1);
    }
  }

  lemma TravelStep(st: Stage, n: nat)
    requires IsStage(st)
    ensures n == 0 ==> Travel(st, n) == st
    ensures n > 0 ==> Travel(st, n) == Deliver(Travel(st, n - 1))
    ensures n > 0 && Travel(st, n).token.Some? ==> Travel(st, n - 1).token.Some?
  {
    hide Take;
  }

  // ---- What a forwarded token leaves behind ----------------------------------------------------------

  ghost predicate SameState(a: State, b: State) {
    b.aborted == a.aborted && forall c :: b.At(c) == a.At(c)
  }

  /** The two stages differ at most in the token and in records created with nothing in them. */
  ghost predicate SameRecords(a: Stage, b: Stage)
    requires IsStage(a) && IsStage(b)
  {
    && b.peers == a.peers && b.leader == a.leader && b.eofs == a.eofs
    && forall p :: p in a.peers ==> SameState(a.states[p], b.states[p])
  }

  /** The token as a peer sends it on. */
  ghost function Stamped(s: State, p: Peer, t: Token): Token {
    if s.At(t.client).phase == Processing then t else t.(sentBy := t.sentBy[p := s.At(t.client).sent])
  }

  /** A token that is forwarded leaves the peer's records as they were and carries its slot. */
  lemma ForwardChangesNothing(place: Place, s: State, t: Token)
    requires Forwarded(OnToken(place, s, t).actions).Some?
    ensures SameState(s, OnToken(place, s, t).state)
    ensures OnToken(place, s, t).actions == [Forward(Stamped(s, place.node, t))]
  {
    hide Totals;
    forall c ensures OnToken(place, s, t).state.At(c) == s.At(c) {}
  }

  lemma DeliverForwards(st: Stage)
    requires IsStage(st) && st.token.Some? && Deliver(st).token.Some?
    ensures SameRecords(st, Deliver(st))
    ensures Deliver(st).token.value == Stamped(st.states[st.at], st.at, st.token.value)
    ensures Deliver(st).at == FrontOf(st.peers, st.at)
    ensures Deliver(st).token.value.client == st.token.value.client
            && Deliver(st).token.value.origin == st.token.value.origin
  {
    ForwardChangesNothing(st.PlaceOf(st.at), st.states[st.at], st.token.value);
    hide OnToken, FrontOf;
  }

  lemma StageHas(st: Stage)
    requires IsStage(st)
    ensures st.at in st.peers && st.leader in st.peers && |st.peers| > 0 && st.states.Keys == st.peers
  {}

  lemma SameItself(st: Stage)
    requires IsStage(st)
    ensures SameRecords(st, st)
  {}

  lemma SameTwice(a: Stage, b: Stage, c: Stage)
    requires IsStage(a) && IsStage(b) && IsStage(c) && SameRecords(a, b) && SameRecords(b, c)
    ensures SameRecords(a, c)
  {
    forall p | p in a.peers ensures SameState(a.states[p], c.states[p]) {
      assert SameState(a.states[p], b.states[p]) && SameState(b.states[p], c.states[p]);
    }
  }

  /** While the token circulates the stage stays at rest and the token goes around the ring. */
  lemma {:induction false} TravelForwards(st: Stage, n: nat)
    requires IsStage(st) && Travel(st, n).token.Some?
    ensures SameRecords(st, Travel(st, n)) && st.token.Some?
    ensures Travel(st, n).at == Follow(st.peers, st.at, n)
    ensures Travel(st, n).token.value.client == st.token.value.client
    ensures Travel(st, n).token.value.origin == st.token.value.origin
  {
    hide *;
    StageHas(st);
    TravelStep(st, n);
    FollowStep(st.peers, st.at, n);
    if n == 0 {
      SameItself(st);
    } else {
      var before := Travel(st, n - 1);
      TravelForwards(st, n - 1);
      DeliverForwards(before);
      SamePeers(st, before);
      SameTwice(st, before, Deliver(before));
    }
  }

  // ---- The slots of a circulating token ----------------------------------------------------------------

  /** Everyone has emitted and nobody has dropped the client. */
  ghost predicate AllEmitted(st: Stage, c: ClientId)
    requires IsStage(st)
  {
    forall p :: p in st.peers ==> st.states[p].At(c).phase != Processing && c !in st.states[p].aborted
  }

  /** Every slot written is what its peer remembers having reported. */
  ghost predicate SlotsAreRemembered(st: Stage, t: Token)
    requires IsStage(st)
  {
    forall p :: p in t.sentBy ==> p in st.peers && t.sentBy[p] == st.states[p].At(t.client).sent
  }

  /** The peer met at delivery i. */
  ghost function PeerAt(st: Stage, i: nat): (p: Peer)
    requires IsStage(st)
    ensures p in st.peers
  {
    Follow(st.peers, st.at, i)
  }

  lemma SameEmitted(a: Stage, b: Stage, t: Token)
    requires IsStage(a) && IsStage(b) && SameRecords(a, b)
    ensures AllEmitted(a, t.client) <==> AllEmitted(b, t.client)
    ensures SlotsAreRemembered(a, t) <==> SlotsAreRemembered(b, t)
  {
    forall p | p in a.peers
      ensures b.states[p].At(t.client) == a.states[p].At(t.client) && b.states[p].aborted == a.states[p].aborted
    {
      assert SameState(a.states[p], b.states[p]);
    }
  }

  lemma SamePeers(a: Stage, b: Stage)
    requires IsStage(a) && IsStage(b) && SameRecords(a, b)
    ensures b.peers == a.peers && b.leader == a.leader && b.eofs == a.eofs
  {}

  lemma StampedSlots(st: Stage, t: Token)
    requires IsStage(st) && st.states[st.at].At(t.client).phase != Processing
    ensures Stamped(st.states[st.at], st.at, t).sentBy.Keys == t.sentBy.Keys + {st.at}
    ensures SlotsAreRemembered(st, t) ==> SlotsAreRemembered(st, Stamped(st.states[st.at], st.at, t))
  {}

  /** A delivery that does not end the token adds the peer's slot to it. */
  lemma DeliverAddsSlot(st: Stage)
    requires IsStage(st) && st.token.Some? && Deliver(st).token.Some? && AllEmitted(st, st.token.value.client)
    ensures Deliver(st).token.value.sentBy.Keys == st.token.value.sentBy.Keys + {st.at}
    ensures SlotsAreRemembered(st, st.token.value) ==> SlotsAreRemembered(st, Deliver(st).token.value)
    ensures Deliver(st).token.value.client == st.token.value.client
            && Deliver(st).token.value.origin == st.token.value.origin
  {
    hide OnToken, Take, FrontOf, Deliver;
    DeliverForwards(st);
    StampedSlots(st, st.token.value);
  }

  ghost predicate HasMet(st: Stage, n: nat, u: Token)
    requires IsStage(st)
  {
    forall i: nat :: i < n ==> PeerAt(st, i) in u.sentBy
  }

  lemma PeerIs(st: Stage, i: nat)
    requires IsStage(st)
    ensures PeerAt(st, i) == Follow(st.peers, st.at, i)
  {}

  lemma MetNone(st: Stage, u: Token)
    requires IsStage(st)
    ensures HasMet(st, 0, u)
  {}

  lemma MetOneMore(st: Stage, n: nat, t: Token, u: Token)
    requires IsStage(st) && HasMet(st, n, t) && u.sentBy.Keys == t.sentBy.Keys + {PeerAt(st, n)}
    ensures HasMet(st, n + 1, u)
  {
    hide PeerAt;
    forall i: nat | i < n + 1 ensures PeerAt(st, i) in u.sentBy {
      if i < n {
        assert PeerAt(st, i) in t.sentBy.Keys;
      }
    }
  }

  /** After n deliveries a token still circulating has the slots of all the peers it met. */
  lemma {:induction false} SlotsAfter(st: Stage, n: nat)
    requires IsStage(st) && Travel(st, n).token.Some? && st.token.Some? && AllEmitted(st, st.token.value.client)
    ensures HasMet(st, n, Travel(st, n).token.value)
    ensures SlotsAreRemembered(st, st.token.value) ==> SlotsAreRemembered(st, Travel(st, n).token.value)
  {
    hide *;
    TravelStep(st, n);
    if n == 0 {
      MetNone(st, Travel(st, n).token.value);
    } else {
      var before := Travel(st, n - 1);
      SlotsAfter(st, n - 1);
      TravelForwards(st, n - 1);
      SameEmitted(st, before, before.token.value);
      DeliverAddsSlot(before);
      PeerIs(st, n - 1);
      MetOneMore(st, n - 1, before.token.value, Travel(st, n).token.value);
      SameEmitted(st, before, Deliver(before).token.value);
    }
  }

  // ---- Where a token ends ----------------------------------------------------------------------------

  /** Having met every peer but the one it stands at, the token misses at most that slot. */
  lemma MissesOnlyThis(st: Stage, visits: nat, u: Token, p: Peer)
    requires IsStage(st) && p in st.peers && visits >= |st.peers| - 1 && HasMet(st, visits, u)
    ensures p in u.sentBy || p == PeerAt(st, visits)
  {
    hide Follow;
    var i := Distance(st.peers, st.at, p);
    assert PeerAt(st, i) == p;
  }

  lemma FullIsNotForwarded(place: Place, s: State, t: Token)
    requires t.origin == place.node && t.client !in s.aborted && |Stamped(s, place.node, t).sentBy| >= place.size
    ensures Forwarded(OnToken(place, s, t).actions).None?
  {
    hide Totals;
  }

  /** A full token ends at the leader. */
  lemma FullEndsAtLeader(st: Stage)
    requires IsStage(st) && st.token.Some? && st.at == st.leader && st.token.value.origin == st.leader
    requires AllEmitted(st, st.token.value.client)
    requires forall p :: p in st.peers ==> p in st.token.value.sentBy || p == st.leader
    ensures Deliver(st).token.None?
  {
    var filled := Stamped(st.states[st.at], st.at, st.token.value);
    StampedSlots(st, st.token.value);
    forall p | p in st.peers ensures p in filled.sentBy.Keys {}
    SubsetOfSameSize(st.peers, filled.sentBy.Keys);
    FullIsNotForwarded(st.PlaceOf(st.at), st.states[st.at], st.token.value);
    hide OnToken, FrontOf;
  }

  /** A token back at the leader after nearly a round, or more than one, ends there. */
  lemma EndsAtLeader(st: Stage, visits: nat)
    requires IsStage(st) && st.token.Some? && AllEmitted(st, st.token.value.client)
             && st.token.value.origin == st.leader
    requires visits >= |st.peers| - 1 && PeerAt(st, visits) == st.leader
    ensures Travel(st, visits + 1).token.None?
  {
    var now := Travel(st, visits);
    if now.token.Some? {
      TravelForwards(st, visits);
      SlotsAfter(st, visits);
      hide Travel, Deliver, SameRecords, AllEmitted, HasMet;
      forall p | p in st.peers ensures p in now.token.value.sentBy || p == st.leader {
        MissesOnlyThis(st, visits, now.token.value, p);
      }
      AtRest(st, now);
      FullEndsAtLeader(now);
      TravelStep(st, visits + 1);
    } else {
      StaysResolved(st, visits, visits + 1);
    }
  }

  lemma AtRest(st: Stage, now: Stage)
    requires IsStage(st) && IsStage(now) && SameRecords(st, now)
    ensures now.peers == st.peers && now.leader == st.leader && now.eofs == st.eofs
    ensures forall c :: AllEmitted(st, c) ==> AllEmitted(now, c)
    ensures forall c :: now.states[now.leader].At(c) == st.states[st.leader].At(c)
  {
    assert SameState(st.states[st.leader], now.states[st.leader]);
    forall c | AllEmitted(st, c) ensures AllEmitted(now, c) {
      SameEmitted(st, now, Token(c, 0, map[]));
    }
  }

  lemma LeaderVisit(st: Stage) returns (visits: nat)
    requires IsStage(st)
    ensures |st.peers| - 1 <= visits <= 2 * |st.peers| - 2 && PeerAt(st, visits) == st.leader
  {
    hide Follow;
    var d := Distance(st.peers, st.at, st.leader);
    visits := if d == |st.peers| - 1 then d else d + |st.peers|;
  }

  /** Once every peer has emitted, a token closes the barrier or dies within 2N - 1 deliveries,
      wherever it is. */
  lemma ClosesWithinTwoRounds(st: Stage)
    requires IsStage(st) && st.token.Some? && AllEmitted(st, st.token.value.client)
             && st.token.value.origin == st.leader
    ensures Travel(st, 2 * |st.peers| - 1).token.None?
  {
    hide Travel, PeerAt, AllEmitted;
    var visits := LeaderVisit(st);
    EndsAtLeader(st, visits);
    StaysResolved(st, visits + 1, 2 * |st.peers| - 1);
  }

  lemma GraveEndsToken(st: Stage)
    requires IsStage(st) && st.token.Some? && st.token.value.client in st.states[st.at].aborted
    ensures Deliver(st).token.None?
  {}

  /** If any peer has tombstoned the client, every token for it closes or dies within N deliveries. */
  lemma DiesWithinOneRound(st: Stage, grave: Peer)
    requires IsStage(st) && st.token.Some? && grave in st.peers && st.token.value.client in st.states[grave].aborted
    ensures Travel(st, |st.peers|).token.None?
  {
    hide Follow, Travel, Deliver, FrontOf;
    var d := Distance(st.peers, st.at, grave);
    var now := Travel(st, d);
    if now.token.Some? {
      TravelForwards(st, d);
      assert SameState(st.states[grave], now.states[grave]);
      GraveEndsToken(now);
      TravelStep(st, d + 1);
      StaysResolved(st, d + 1, |st.peers|);
    } else {
      StaysResolved(st, d, |st.peers|);
    }
  }

  // ---- What ends it --------------------------------------------------------------------------------------

  /** A token of a client that every peer has emitted ends only at the leader, with every slot in it; a
      leader that has not closed yet sends the end-of-stream. */
  lemma OnlyLeaderEnds(st: Stage)
    requires IsStage(st) && st.token.Some? && AllEmitted(st, st.token.value.client)
             && st.token.value.origin == st.leader
    requires Deliver(st).token.None?
    ensures st.at == st.leader && |st.token.value.sentBy.Keys + {st.at}| >= |st.peers|
    ensures Deliver(st).eofs == st.eofs + (
              if st.states[st.leader].At(st.token.value.client).phase == Done then []
              else [DownstreamEof(st.token.value.client,
                                  Totals(Stamped(st.states[st.at], st.at, st.token.value).sentBy))])
  {
    hide Totals, FrontOf;
    StampedSlots(st, st.token.value);
    EndingOutcome(st.PlaceOf(st.at), st.states[st.at], st.token.value);
    hide OnToken;
  }

  lemma EndingOutcome(place: Place, s: State, t: Token)
    requires s.At(t.client).phase != Processing && t.client !in s.aborted
    requires Forwarded(OnToken(place, s, t).actions).None?
    ensures t.origin == place.node && |Stamped(s, place.node, t).sentBy| >= place.size
    ensures OnToken(place, s, t).actions ==
            if s.At(t.client).phase == Done then []
              else [DownstreamEof(t.client, Totals(Stamped(s, place.node, t).sentBy))]
  {
    hide Totals;
    assert OnToken(place, s, t) == Advance(place, s.Put(t.client, s.At(t.client)), Stamped(s, place.node, t));
  }

  lemma NoToken(st: Stage)
    requires IsStage(st) && st.token.None?
    ensures Deliver(st) == st
  {}

  lemma {:induction false} LastHop(st: Stage, n: nat) returns (d: nat)
    requires IsStage(st) && st.token.Some? && Travel(st, n).token.None?
    ensures d < n && Travel(st, d).token.Some? && Deliver(Travel(st, d)).token.None?
    ensures Travel(st, n) == Deliver(Travel(st, d))
  {
    hide *;
    TravelStep(st, n);
    if Travel(st, n - 1).token.Some? {
      d := n - 1;
    } else {
      d := LastHop(st, n - 1);
      NoToken(Travel(st, n - 1));
    }
  }

  /** Slots that are all there and all remembered. */
  ghost predicate IsFull(st: Stage, c: ClientId, sentBy: map<Peer, Counts>)
    requires IsStage(st)
  {
    sentBy.Keys == st.peers && forall p :: p in sentBy ==> sentBy[p] == st.states[p].At(c).sent
  }

  /** Once every peer has emitted, and the leader has not closed yet, a token with right slots sends one
      end-of-stream downstream within 2N - 1 deliveries, made of what every peer remembers; from a
      leader that has closed, none. */
  lemma EndOfStreamIsSent(st: Stage) returns (d: nat, sentBy: map<Peer, Counts>)
    requires IsStage(st) && st.token.Some? && AllEmitted(st, st.token.value.client)
             && st.token.value.origin == st.leader
    ensures d < 2 * |st.peers| - 1 && Travel(st, d).token.Some? && PeerAt(st, d) == st.leader
    ensures Travel(st, d).eofs == st.eofs && Travel(st, d + 1) == Travel(st, 2 * |st.peers| - 1)
    ensures Travel(st, d + 1).eofs == st.eofs + (
              if st.states[st.leader].At(st.token.value.client).phase == Done then []
                else [DownstreamEof(st.token.value.client, Totals(sentBy))])
    ensures SlotsAreRemembered(st, st.token.value) ==> IsFull(st, st.token.value.client, sentBy)
  {
    hide *;
    StageHas(st);
    ClosesWithinTwoRounds(st);
    d := LastHop(st, 2 * |st.peers| - 1);
    TravelStep(st, d + 1);
    TravelForwards(st, d);
    SlotsAfter(st, d);
    PeerIs(st, d);
    SamePeers(st, Travel(st, d));
    sentBy := EndsHere(st, Travel(st, d));
  }

  lemma EndsHere(st: Stage, now: Stage) returns (sentBy: map<Peer, Counts>)
    requires IsStage(st) && IsStage(now) && SameRecords(st, now) && now.token.Some? && Deliver(now).token.None?
    requires AllEmitted(st, now.token.value.client) && now.token.value.origin == st.leader
    ensures now.at == st.leader
    ensures Deliver(now).eofs == st.eofs + (
              if st.states[st.leader].At(now.token.value.client).phase == Done then []
              else [DownstreamEof(now.token.value.client, Totals(sentBy))])
    ensures SlotsAreRemembered(st, now.token.value) ==> IsFull(st, now.token.value.client, sentBy)
  {
    hide Deliver, FrontOf, Totals, SameRecords, SlotsAreRemembered, IsFull;
    AtRest(st, now);
    OnlyLeaderEnds(now);
    sentBy := Stamped(now.states[now.at], now.at, now.token.value).sentBy;
    if SlotsAreRemembered(st, now.token.value) {
      FullSlots(st, now, now.token.value);
    }
  }

  lemma FullSlots(st: Stage, now: Stage, u: Token)
    requires IsStage(st) && IsStage(now) && SameRecords(st, now) && SlotsAreRemembered(st, u)
    requires now.states[now.at].At(u.client).phase != Processing && |u.sentBy.Keys + {now.at}| >= |st.peers|
    ensures IsFull(st, u.client, Stamped(now.states[now.at], now.at, u).sentBy)
  {
    var filled := Stamped(now.states[now.at], now.at, u);
    SamePeers(st, now);
    SameEmitted(st, now, u);
    StampedSlots(now, u);
    SameEmitted(st, now, filled);
    hide SameRecords;
    forall p | p in filled.sentBy ensures p in st.peers {
      assert SlotsAreRemembered(st, filled);
    }
    SubsetOfSameSize(filled.sentBy.Keys, st.peers);
  }

  // ---- The leader's report closes the barrier ------------------------------------------------------------

  /** The leader reports what it sent, with every other peer done emitting. */
  ghost predicate OthersEmitted(st: Stage, c: ClientId)
    requires IsStage(st)
  {
    && st.states[st.leader].At(c).phase == Processing
    && forall p ::
        p in st.peers ==> c !in st.states[p].aborted && (p != st.leader ==> st.states[p].At(c).phase != Processing)
  }

  ghost function Report(st: Stage, c: ClientId, sent: Counts): (after: Stage)
    requires IsStage(st)
    ensures IsStage(after)
  {
    Take(st, st.leader, ReportSent(st.PlaceOf(st.leader), st.states[st.leader], c, sent))
  }

  /** What each peer has sent once the leader has reported. */
  ghost function Reports(st: Stage, c: ClientId, sent: Counts): map<Peer, Counts>
    requires IsStage(st)
  {
    map p | p in st.peers :: if p == st.leader then sent else st.states[p].At(c).sent
  }

  lemma ReportAlone(st: Stage, c: ClientId, sent: Counts)
    requires IsStage(st) && OthersEmitted(st, c) && |st.peers| == 1
    ensures Report(st, c, sent).token.None?
    ensures Report(st, c, sent).eofs == st.eofs + [DownstreamEof(c, Totals(Reports(st, c, sent)))]
  {
    hide Totals, FrontOf;
    SubsetOfSameSize({st.leader}, st.peers);
    assert Reports(st, c, sent) == map[st.leader := sent];
    ReportAloneActions(st.PlaceOf(st.leader), st.states[st.leader], c, sent);
  }

  lemma ReportAloneActions(place: Place, s: State, c: ClientId, sent: Counts)
    requires place.node == place.leader && place.size == 1 && s.At(c).phase == Processing
    ensures ReportSent(place, s, c, sent).actions == [DownstreamEof(c, Totals(map[place.leader := sent]))]
  {
    hide Totals;
    assert |map[place.node := sent]| == 1;
  }

  lemma ReportStarts(st: Stage, c: ClientId, sent: Counts)
    requires IsStage(st) && OthersEmitted(st, c) && |st.peers| > 1
    ensures var after := Report(st, c, sent);
            && after.token == Some(Token(c, st.leader, map[st.leader := sent]))
            && after.at == FrontOf(st.peers, st.leader) && after.eofs == st.eofs && after.peers == st.peers
              && after.leader == st.leader
            && after.states[after.leader].At(c).phase == Emitted
            && AllEmitted(after, c) && SlotsAreRemembered(after, after.token.value)
            && forall p :: p in st.peers ==> after.states[p].At(c).sent == Reports(st, c, sent)[p]
  {
    hide Totals, FrontOf;
    assert |map[st.leader := sent]| == 1;
    var s := st.states[st.leader];
    assert ReportSent(st.PlaceOf(st.leader), s, c, sent)
        == Outcome(s.Put(c, s.At(c).(sent := sent, phase := Emitted)),
                   [Forward(Token(c, st.leader, map[st.leader := sent]))]);
  }

  /** When the leader reports last, its token sends one end-of-stream within N deliveries, made of
      exactly what each peer reported. */
  lemma LeaderReportClosesTheBarrier(st: Stage, c: ClientId, sent: Counts)
    requires IsStage(st) && OthersEmitted(st, c)
    ensures Travel(Report(st, c, sent), |st.peers|).token.None?
    ensures Travel(Report(st, c, sent), |st.peers|).eofs == st.eofs + [DownstreamEof(c, Totals(Reports(st, c, sent)))]
  {
    hide *;
    StageHas(st);
    var after := Report(st, c, sent);
    if |st.peers| == 1 {
      ReportAlone(st, c, sent);
      TravelStep(after, 0);
      StaysResolved(after, 0, |st.peers|);
    } else {
      ReportStarts(st, c, sent);
      FollowShift(st.peers, st.leader, |st.peers| - 1);
      FrontIsOneCycle(st.peers, st.leader, st.leader);
      PeerIs(after, |st.peers| - 1);
      EndsAtLeader(after, |st.peers| - 1);
      var d, sentBy := EndOfStreamIsSent(after);
      StaysResolved(after, |st.peers|, 2 * |st.peers| - 1);
      SlotsAreReports(st, after, c, sent, sentBy);
    }
  }

  lemma SlotsAreReports(st: Stage, after: Stage, c: ClientId, sent: Counts, sentBy: map<Peer, Counts>)
    requires IsStage(st) && IsStage(after) && after.peers == st.peers && IsFull(after, c, sentBy)
    requires forall p :: p in st.peers ==> after.states[p].At(c).sent == Reports(st, c, sent)[p]
    ensures sentBy == Reports(st, c, sent)
  {
    assert sentBy.Keys == Reports(st, c, sent).Keys;
  }
}

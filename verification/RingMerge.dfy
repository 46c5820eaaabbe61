/** RingMerge: two inputs, each with its own end-of-stream. The combined expected count is handed to
    the completion logic once both are known; the two counts survive a crash between them. */
module RingMerge {
  import opened Common
  import opened Ledger
  import opened ExactlyOnce
  import RC = RingCompletion

  /** The two tables as one, keyed by side. */
  ghost function BothSides(left: map<ClientId, nat>, right: map<ClientId, nat>): map<(Side, ClientId), nat> {
    map k | k in SideKeys(left, right) :: if k.0 == Left then NumberAt(left, k.1) else NumberAt(right, k.1)
  }

  ghost function SideKeys(left: map<ClientId, nat>, right: map<ClientId, nat>): set<(Side, ClientId)> {
    (set c | c in left :: (Left, c)) + (set c | c in right :: (Right, c))
  }

  lemma BothAt(left: map<ClientId, nat>, right: map<ClientId, nat>, side: Side, c: ClientId)
    ensures (side, c) in BothSides(left, right) <==> c in (if side == Left then left else right)
    ensures (side, c) in BothSides(left, right) ==>
            BothSides(left, right)[(side, c)] == if side == Left then left[c] else right[c]
  {}

  lemma BothEqual(left: map<ClientId, nat>, right: map<ClientId, nat>, counts: map<(Side, ClientId), nat>)
    requires forall side: Side, c: ClientId :: (side, c) in counts <==> c in (if side == Left then left else right)
    requires forall side: Side, c: ClientId ::
               (side, c) in counts ==> counts[(side, c)] == if side == Left then left[c] else right[c]
    ensures BothSides(left, right) == counts
  {
    forall k ensures k in BothSides(left, right) <==> k in counts {
      BothAt(left, right, k.0, k.1);
      assert k == (k.0, k.1);
    }
    forall k | k in counts ensures BothSides(left, right)[k] == counts[k] {
      BothAt(left, right, k.0, k.1);
      assert k == (k.0, k.1);
    }
    hide BothSides;
    assert BothSides(left, right).Keys == counts.Keys;
  }

  lemma BothWithLeft(left: map<ClientId, nat>, right: map<ClientId, nat>, c: ClientId, n: nat)
    ensures BothSides(left[c := n], right) == BothSides(left, right)[(Left, c) := n]
  {
    forall side: Side, k: ClientId { BothAt(left, right, side, k); }
    hide BothSides;
    BothEqual(left[c := n], right, BothSides(left, right)[(Left, c) := n]);
  }

  lemma BothWithRight(left: map<ClientId, nat>, right: map<ClientId, nat>, c: ClientId, n: nat)
    ensures BothSides(left, right[c := n]) == BothSides(left, right)[(Right, c) := n]
  {
    forall side: Side, k: ClientId { BothAt(left, right, side, k); }
    hide BothSides;
    BothEqual(left, right[c := n], BothSides(left, right)[(Right, c) := n]);
  }

  lemma BothDropped(left: map<ClientId, nat>, right: map<ClientId, nat>, c: ClientId)
    ensures BothSides(left - {c}, right - {c}) ==
            map k | k in BothSides(left, right) && k.1 != c :: BothSides(left, right)[k]
  {
    forall side: Side, k: ClientId { BothAt(left, right, side, k); }
    hide BothSides;
    BothEqual(left - {c}, right - {c}, map k | k in BothSides(left, right) && k.1 != c :: BothSides(left, right)[k]);
  }

  class RingMerge {
    const rc: RC.RingCompletion
    var left: map<ClientId, nat>
    var right: map<ClientId, nat>

    ghost function View(): Progress
      reads this, rc
    {
      Progress(rc.View(), BothSides(left, right))
    }

    constructor (rc: RC.RingCompletion)
      requires rc.View() == RC.State(map[], {})
      ensures View() == NO_PROGRESS && this.rc == rc
    {
      this.rc, left, right := rc, map[], map[];
    }

    method OnData(c: ClientId, ghost stage: Stage, ghost m: Message) returns (actions: seq<RC.Action>)
      requires m.client == c
      modifies this, rc
      ensures View() == Step(stage, old(View()), Data(m))
      ensures actions == RC.OnData(old(rc.View()), c).actions
    {
      actions := rc.Data(c);
    }

    method OnLeftEof(c: ClientId, expected: nat, ghost stage: Stage) returns (actions: seq<RC.Action>)
      requires stage.sides == {Left, Right}
      modifies this, rc
      ensures View() == Step(stage, old(View()), Event<Control>.Control(UpstreamEof(Left, c, expected)))
      ensures actions == Due(stage, old(rc.View()), View().counts, c)
      ensures left == old(left)[c := expected] && right == old(right)
      ensures c in right && c !in old(rc.aborted) ==>
                && c in rc.clients && rc.clients[c].expected == expected + right[c]
                && (RC.Emit(c) in actions <==>
                    rc.clients[c].phase == RC.Processing && expected + right[c] <= rc.clients[c].received)
      ensures c !in right ==> rc.View() == old(rc.View()) && actions == []
    {
      BothWithLeft(left, right, c, expected);
      hide BothSides;
      left := left[c := expected];
      actions := MaybeComplete(c, stage);
    }

    method OnRightEof(c: ClientId, expected: nat, ghost stage: Stage) returns (actions: seq<RC.Action>)
      requires stage.sides == {Left, Right}
      modifies this, rc
      ensures View() == Step(stage, old(View()), Event<Control>.Control(UpstreamEof(Right, c, expected)))
      ensures actions == Due(stage, old(rc.View()), View().counts, c)
      ensures right == old(right)[c := expected] && left == old(left)
      ensures c in left && c !in old(rc.aborted) ==>
                && c in rc.clients && rc.clients[c].expected == expected + left[c]
                && (RC.Emit(c) in actions <==>
                    rc.clients[c].phase == RC.Processing && expected + left[c] <= rc.clients[c].received)
      ensures c !in left ==> rc.View() == old(rc.View()) && actions == []
    {
      BothWithRight(left, right, c, expected);
      hide BothSides;
      right := right[c := expected];
      actions := MaybeComplete(c, stage);
    }

    /** What the completion logic asks for when both counts are known, and nothing before. */
    ghost function Due(stage: Stage, s: RC.State, counts: map<(Side, ClientId), nat>, c: ClientId): seq<RC.Action> {
      if AllKnown(stage, counts, c) then RC.OnUpstreamEof(s, c, OverSides(stage, CountOf(counts, c))).actions else []
    }

    method MaybeComplete(c: ClientId, ghost stage: Stage) returns (actions: seq<RC.Action>)
      requires stage.sides == {Left, Right}
      modifies rc
      ensures left == old(left) && right == old(right)
      ensures rc.View() == if AllKnown(stage, BothSides(left, right), c)
                           then RC.OnUpstreamEof(old(rc.View()), c,
                                                 OverSides(stage, CountOf(BothSides(left, right), c))).state
                           else old(rc.View())
      ensures actions == Due(stage, old(rc.View()), BothSides(left, right), c)
      ensures c in left && c in right && c !in old(rc.aborted) ==>
                && c in rc.clients && rc.clients[c].expected == left[c] + right[c]
                && (RC.Emit(c) in actions <==>
                    rc.clients[c].phase == RC.Processing && left[c] + right[c] <= rc.clients[c].received)
      ensures c !in left || c !in right ==> rc.View() == old(rc.View()) && actions == []
    {
      ghost var counts := BothSides(left, right);
      BothAt(left, right, Left, c);
      BothAt(left, right, Right, c);
      hide BothSides;
      assert AllKnown(stage, counts, c) <==> c in left && c in right;
      actions := [];
      if c in left && c in right {
        assert counts[(Left, c)] == left[c] && counts[(Right, c)] == right[c];
        var combined := left[c] + right[c];
        assert combined == OverSides(stage, CountOf(counts, c));
        actions := rc.UpstreamEof(c, combined);
      }
    }

    /** What the node sent is handed to the completion logic. */
    method OnReport(c: ClientId, sent: Counts, ghost stage: Stage) returns (actions: seq<RC.Action>)
      requires stage.place == rc.place
      modifies rc
      ensures View() == Step(stage, old(View()), Event<Control>.Control(Reported(c, sent)))
      ensures left == old(left) && right == old(right)
    {
      actions := rc.Report(c, sent);
    }

    method OnToken(t: RC.Token, ghost stage: Stage) returns (actions: seq<RC.Action>)
      requires stage.place == rc.place
      modifies rc
      ensures View() == Step(stage, old(View()), Event<Control>.Control(TokenTaken(t)))
      ensures left == old(left) && right == old(right)
    {
      actions := rc.Receive(t);
    }

    /** An abort forgets and tombstones the client on both sides. */
    method Discard(c: ClientId, ghost stage: Stage)
      modifies this, rc
      ensures View() == Step(stage, old(View()), Event<Control>.Control(Dropped(c)))
      ensures left == old(left) - {c} && right == old(right) - {c}
      ensures c !in rc.clients && rc.aborted == old(rc.aborted) + {c}
    {
      BothDropped(left, right, c);
      hide BothSides;
      rc.Abandon(c);
      left, right := left - {c}, right - {c};
    }
  }
}

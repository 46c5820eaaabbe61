/** A checkpointed node and its input queue: which messages are in the live state, which are in the
    durable checkpoint, and which deliveries the broker still holds because they have not been
    acknowledged. The functions are the single effects in the order the source performs them; a
    crash may fall between any two. */
module Ledger {
  import opened Common
  import opened Deduplicator

  /** A data message; its body is an abstract value. */
  datatype Message = Message(client: ClientId, id: Id, body: int)

  /** One delivery by the broker, with its own tag: a redelivery is another delivery. */
  datatype Delivery = Delivery(tag: nat, msg: Message)

  /** What changes a node's state: a data message, or anything its control handlers do. */
  datatype Event<E> = Data(msg: Message) | Control(event: E)

  /** A checkpoint, as the events it is the fold of. */
  datatype Checkpoint<E> = Checkpoint(applied: seq<Event<E>>, seen: set<Id>, aborted: set<ClientId>)

  datatype Ledger<E> = Ledger(
    applied: seq<Event<E>>,
    seen: set<Id>,
    aborted: set<ClientId>,
    dirty: bool,
    pending: seq<Delivery>,
    store: Option<Checkpoint<E>>,
    unacked: set<Delivery>,
    published: set<Message>)
  {
    function Durable(): Checkpoint<E> {
      if store.Some? then store.value else Checkpoint([], {}, {})
    }

    /** The node starts for the first time. */
    static function Fresh(): Ledger<E> {
      Ledger([], {}, {}, false, [], None, {}, {})
    }

    /** The broker accepts a message, new or published once more. */
    function Publish(d: Delivery): Ledger<E> {
      this.(unacked := unacked + {d}, published := published + {d.msg})
    }

    /** The deduplicator's answer. */
    function IsDuplicate(id: Id): bool {
      id.seqNo != 0 && id in seen
    }

    /** apply, record, mark dirty, hold the ack. */
    function Apply(d: Delivery): Ledger<E> {
      this.(applied := applied + [Data(d.msg)],
            seen := seen + (if d.msg.id.seqNo != 0 then {d.msg.id} else {}),
            dirty := true,
            pending := pending + [d])
    }

    /** A control handler changes the state without marking it dirty. */
    function Handle(e: E): Ledger<E> {
      this.(applied := applied + [Control(e)])
    }

    function Ack(d: Delivery): Ledger<E> {
      this.(unacked := unacked - {d})
    }

    /** The store's atomic replacement of the checkpoint. */
    function Save(): Ledger<E> {
      this.(store := Some(Checkpoint(applied, seen, aborted)), dirty := false)
    }

    /** The first held ack is sent. */
    function AckFirst(): Ledger<E>
      requires pending != []
    {
      this.(unacked := unacked - {pending[0]}, pending := pending[1..])
    }

    function AckAll(): Ledger<E>
      decreases |pending|
    {
      if pending == [] then this else AckFirst().AckAll()
    }

    function Mark(client: ClientId): Ledger<E> {
      this.(aborted := aborted + {client}, dirty := true)
    }

    /** The process dies and starts again from its checkpoint; the broker delivers again whatever
        was not acknowledged. */
    function Crash(): Ledger<E> {
      Ledger(Durable().applied, Durable().seen, Durable().aborted, false, [], store, unacked, published)
    }

    // The source's operations, as sequences of these effects.

    function Flush(force: bool): Ledger<E> {
      (if dirty || force then Save() else this).AckAll()
    }

    function HandleData(d: Delivery, every: nat): Ledger<E> {
      if d.msg.client in aborted || IsDuplicate(d.msg.id) then Ack(d)
      else if |Apply(d).pending| >= every then Apply(d).Flush(false)
      else Apply(d)
    }

    /** A control message: what is held is settled, the handler runs and is made durable, and so is what it
        did after that. */
    function HandleControl(arrival: E, report: Option<E>): Ledger<E> {
      var handled := Flush(false).Handle(arrival).Flush(true);
      if report.Some? then handled.Handle(report.value).Flush(true) else handled
    }

    function HandleAbort(client: ClientId, drop: E): Ledger<E> {
      Handle(drop).Mark(client).Flush(true)
    }
  }

  // ---- Invariants ------------------------------------------------------------------------------

  /** The data messages of a log, in order. */
  function DataOf<E>(log: seq<Event<E>>): seq<Message> {
    if log == [] then []
    else DataOf(log[..|log| - 1]) + (if log[|log| - 1].Data? then [log[|log| - 1].msg] else [])
  }

  lemma DataOfSnoc<E>(log: seq<Event<E>>, e: Event<E>)
    ensures DataOf(log + [e]) == DataOf(log) + (if e.Data? then [e.msg] else [])
  {
    assert (log + [e])[..|log + [e]| - 1] == log;
  }

  ghost predicate Stamped(m: Message) {
    m.id.seqNo != 0
  }

  /** No identity was applied twice, and those applied are exactly those recorded. */
  ghost predicate ExactlyRecorded(data: seq<Message>, seen: set<Id>) {
    && (forall i, j :: 0 <= i < j < |data| && Stamped(data[i]) ==> data[i].id != data[j].id)
    && (forall m :: m in data && Stamped(m) ==> m.id in seen)
    && (forall id :: id in seen ==> id.seqNo != 0 && exists m :: m in data && m.id == id)
  }

  function MessagesOf(ds: seq<Delivery>): (ms: seq<Message>)
    ensures |ms| == |ds|
    ensures forall i :: 0 <= i < |ds| ==> ms[i] == ds[i].msg
  {
    seq(|ds|, i requires 0 <= i < |ds| => ds[i].msg)
  }

  /** The broker still holds a delivery of this identity. */
  ghost predicate Outstanding<E>(l: Ledger<E>, id: Id) {
    exists d :: d in l.unacked && d.msg.id == id
  }

  /** Its ack is being held. */
  ghost predicate Pending<E>(l: Ledger<E>, id: Id) {
    exists d :: d in l.pending && d.msg.id == id
  }

  /** A published message is not lost: its effect is durable, or the broker will deliver it again,
      or its client was durably aborted. */
  ghost predicate Accounted<E>(l: Ledger<E>, m: Message) {
    m.client in l.Durable().aborted || m.id in l.Durable().seen || Outstanding(l, m.id)
  }

  /** A stamp names one message. */
  ghost predicate Coherent(published: set<Message>) {
    forall m, n :: m in published && n in published && Stamped(m) && m.id == n.id ==> m == n
  }

  /** The held acks belong to deliveries the broker still has, each once. */
  ghost predicate Holding<E>(l: Ledger<E>) {
    && (forall d :: d in l.pending ==> d in l.unacked && (Stamped(d.msg) ==> d.msg.id in l.seen))
    && (forall i, j :: 0 <= i < j < |l.pending| ==> l.pending[i] != l.pending[j])
  }

  /** What is live is what is durable plus, when there is something to save, what is held. */
  ghost predicate Extends<E>(l: Ledger<E>) {
    && l.Durable().applied <= l.applied
    && l.Durable().aborted <= l.aborted
    && DataOf(l.applied) == DataOf(l.Durable().applied) + (if l.dirty then MessagesOf(l.pending) else [])
  }

  /** Nothing comes from anywhere but the broker, and nothing published is lost. */
  ghost predicate NothingLost<E(!new)>(l: Ledger<E>) {
    && Coherent(l.published)
    && (forall m :: m in DataOf(l.applied) ==> m in l.published)
    && (forall d :: d in l.unacked ==> d.msg in l.published)
    && (forall m :: m in l.published && Stamped(m) ==> Accounted(l, m))
    && (forall id :: id in l.seen ==> id in l.Durable().seen || Pending(l, id))
  }

  /** Holds between any two effects. */
  ghost predicate Safe<E(!new)>(l: Ledger<E>) {
    && ExactlyRecorded(DataOf(l.applied), l.seen)
    && ExactlyRecorded(DataOf(l.Durable().applied), l.Durable().seen)
    && Extends(l) && Holding(l) && NothingLost(l)
  }

  /** Holds besides when no handler is running. */
  ghost predicate Idle<E(!new)>(l: Ledger<E>, every: nat) {
    && Safe(l)
    && (l.pending != [] ==> l.dirty)
    && |l.pending| < every
    && l.aborted == l.Durable().aborted
  }

  lemma FreshIsIdle<E(!new)>(every: nat)
    requires every > 0
    ensures Idle(Ledger<E>.Fresh(), every)
  {}

  lemma PublishIsSafe<E(!new)>(l: Ledger<E>, d: Delivery)
    requires Safe(l)
    requires forall m :: m in l.published && Stamped(m) && m.id == d.msg.id ==> m == d.msg
    ensures Safe(l.Publish(d))
  {
    hide ExactlyRecorded, DataOf, MessagesOf;
    var after := l.Publish(d);
    assert d in after.unacked;
    forall id | Outstanding(l, id) ensures Outstanding(after, id) {
      var o :| o in l.unacked && o.msg.id == id;
      assert o in after.unacked;
    }
    forall id ensures Pending(l, id) <==> Pending(after, id) {}
    assert Outstanding(after, d.msg.id);
    hide Outstanding, Pending;
  }

  lemma RecordedSnoc(data: seq<Message>, seen: set<Id>, m: Message)
    requires ExactlyRecorded(data, seen)
    requires Stamped(m) ==> m.id !in seen
    ensures ExactlyRecorded(data + [m], seen + (if Stamped(m) then {m.id} else {}))
  {
    var after := data + [m];
    assert forall x :: x in after <==> x in data || x == m;
    assert after[|data|] == m;
  }

  lemma ApplyRecords<E(!new)>(l: Ledger<E>, d: Delivery)
    requires Safe(l) && !l.IsDuplicate(d.msg.id)
    requires l.pending != [] ==> l.dirty
    ensures ExactlyRecorded(DataOf(l.Apply(d).applied), l.Apply(d).seen)
    ensures DataOf(l.Apply(d).applied) == DataOf(l.applied) + [d.msg]
    ensures Extends(l.Apply(d))
  {
    hide DataOf, ExactlyRecorded, Holding, NothingLost;
    var after := l.Apply(d);
    DataOfSnoc(l.applied, Data(d.msg));
    RecordedSnoc(DataOf(l.applied), l.seen, d.msg);
    assert MessagesOf(after.pending) == MessagesOf(l.pending) + [d.msg];
    assert l.pending == [] ==> MessagesOf(l.pending) == [];
    assert l.Durable().applied <= after.applied;
  }

  lemma ApplyHolds<E(!new)>(l: Ledger<E>, d: Delivery)
    requires Holding(l) && d in l.unacked && d !in l.pending
    ensures Holding(l.Apply(d))
    ensures forall id :: Pending(l, id) || id == d.msg.id ==> Pending(l.Apply(d), id)
  {
    var after := l.Apply(d);
    assert after.pending[|l.pending|] == d;
    forall id | Pending(l, id) ensures Pending(after, id) {
      var h :| h in l.pending && h.msg.id == id;
      assert h in after.pending;
    }
  }

  lemma ApplyIsSafe<E(!new)>(l: Ledger<E>, d: Delivery)
    requires Safe(l) && !l.IsDuplicate(d.msg.id)
    requires d in l.unacked && d !in l.pending
    requires l.pending != [] ==> l.dirty
    ensures Safe(l.Apply(d))
  {
    hide ExactlyRecorded, DataOf, MessagesOf, Extends, Holding, NothingLost;
    ApplyRecords(l, d);
    ApplyHolds(l, d);
    ApplyLosesNothing(l, d);
  }

  lemma ApplyLosesNothing<E(!new)>(l: Ledger<E>, d: Delivery)
    requires NothingLost(l) && d in l.unacked
    requires DataOf(l.Apply(d).applied) == DataOf(l.applied) + [d.msg]
    requires forall id :: Pending(l, id) || id == d.msg.id ==> Pending(l.Apply(d), id)
    ensures NothingLost(l.Apply(d))
  {
    hide DataOf, Pending;
    forall id ensures Outstanding(l, id) <==> Outstanding(l.Apply(d), id) {}
    hide Outstanding;
  }

  /** The checkpoint never records an identity the live table has not. */
  lemma DurableSeen<E(!new)>(l: Ledger<E>)
    requires Safe(l)
    ensures l.Durable().seen <= l.seen
  {
    forall id | id in l.Durable().seen ensures id in l.seen {
      var m :| m in DataOf(l.Durable().applied) && m.id == id;
      assert m in DataOf(l.applied);
    }
  }

  lemma SaveIsSafe<E(!new)>(l: Ledger<E>)
    requires Safe(l)
    ensures Safe(l.Save())
  {
    var after := l.Save();
    DurableSeen(l);
    hide ExactlyRecorded, DataOf, MessagesOf;
    forall id ensures Outstanding(l, id) <==> Outstanding(after, id) {}
    hide Outstanding;
  }

  /** With nothing to save, everything seen is durable. */
  lemma CleanIsDurable<E(!new)>(l: Ledger<E>)
    requires Safe(l) && !l.dirty
    ensures l.seen == l.Durable().seen
  {
    DurableSeen(l);
    assert DataOf(l.applied) == DataOf(l.Durable().applied);
  }

  /** The broker forgets a delivery that is not needed: its identity is durable, or held under
      another delivery, or its client is durably aborted. */
  lemma ForgetIsSafe<E(!new)>(l: Ledger<E>, d: Delivery)
    requires Safe(l) && d in l.unacked && d !in l.pending
    requires Stamped(d.msg) ==> d.msg.client in l.Durable().aborted || d.msg.id in l.seen
    ensures Safe(l.Ack(d))
  {
    var after := l.Ack(d);
    forall m | m in l.published && Stamped(m) ensures Accounted(after, m) {
      assert Accounted(l, m);
      if m.id == d.msg.id {
        assert m == d.msg;
        if Pending(l, m.id) {
          var h :| h in l.pending && h.msg.id == m.id;
          assert h in after.unacked;
        }
      } else if Outstanding(l, m.id) {
        var o :| o in l.unacked && o.msg.id == m.id;
        assert o in after.unacked;
      }
    }
    hide ExactlyRecorded, DataOf, MessagesOf, Outstanding, Accounted;
    forall id ensures Pending(l, id) <==> Pending(after, id) {}
  }

  /** A held ack is sent once the checkpoint covers it. */
  lemma AckFirstIsSafe<E(!new)>(l: Ledger<E>)
    requires Safe(l) && l.pending != [] && !l.dirty
    ensures Safe(l.AckFirst())
  {
    hide Safe;
    var d := l.pending[0];
    var released := l.(pending := l.pending[1..]);
    ReleaseIsSafe(l, released);
    ForgetIsSafe(released, d);
    assert released.Ack(d) == l.AckFirst();
  }

  /** Holding one ack less, everything being durable. */
  lemma ReleaseIsSafe<E(!new)>(l: Ledger<E>, released: Ledger<E>)
    requires Safe(l) && l.pending != [] && !l.dirty && released == l.(pending := l.pending[1..])
    ensures Safe(released) && l.pending[0] in released.unacked && l.pending[0] !in released.pending
    ensures Stamped(l.pending[0].msg) ==> l.pending[0].msg.id in released.seen
  {
    hide ExactlyRecorded, DataOf, MessagesOf, NothingLost, Holding;
    CleanIsDurable(l);
    ReleaseHolds(l, released);
    ReleaseLosesNothing(l, released);
  }

  lemma ReleaseHolds<E(!new)>(l: Ledger<E>, released: Ledger<E>)
    requires Holding(l) && l.pending != [] && released == l.(pending := l.pending[1..])
    ensures Holding(released) && l.pending[0] in released.unacked && l.pending[0] !in released.pending
    ensures Stamped(l.pending[0].msg) ==> l.pending[0].msg.id in released.seen
  {
    assert l.pending == [l.pending[0]] + released.pending;
    assert l.pending[0] in l.pending;
  }

  lemma ReleaseLosesNothing<E(!new)>(l: Ledger<E>, released: Ledger<E>)
    requires NothingLost(l) && l.pending != [] && released == l.(pending := l.pending[1..])
    requires l.seen == l.Durable().seen
    ensures NothingLost(released)
  {
    hide DataOf;
    forall id ensures Outstanding(l, id) <==> Outstanding(released, id) {}
    hide Outstanding, Pending;
  }

  lemma {:induction false} AckAllIsSafe<E(!new)>(l: Ledger<E>)
    requires Safe(l) && (l.pending != [] ==> !l.dirty)
    ensures Safe(l.AckAll())
    ensures l.AckAll() == l.(pending := [], unacked := l.unacked - ElementsOf(l.pending))
    decreases |l.pending|
  {
    hide Safe, ElementsOf;
    ElementsFirst(l.pending);
    if l.pending != [] {
      AckFirstIsSafe(l);
      AckAllIsSafe(l.AckFirst());
    } else {
      assert l.unacked == l.unacked - {};
    }
  }

  /** A flush leaves nothing held and nothing to save, and every held delivery acknowledged. */
  lemma FlushIsSafe<E(!new)>(l: Ledger<E>, force: bool)
    requires Safe(l) && (l.pending != [] ==> l.dirty)
    ensures Safe(l.Flush(force))
    ensures l.Flush(force)
            == l.(store := if l.dirty || force then Some(Checkpoint(l.applied, l.seen, l.aborted)) else l.store,
                                 dirty := false, pending := [], unacked := l.unacked - ElementsOf(l.pending))
  {
    if l.dirty || force {
      SaveIsSafe(l);
      AckAllIsSafe(l.Save());
    } else {
      AckAllIsSafe(l);
    }
  }

  /** One call of handle_data, on any delivery the broker holds. */
  lemma HandleDataIsSafe<E(!new)>(l: Ledger<E>, d: Delivery, every: nat)
    requires Idle(l, every) && d in l.unacked && d !in l.pending
    ensures Idle(l.HandleData(d, every), every)
  {
    if d.msg.client in l.aborted || l.IsDuplicate(d.msg.id) {
      ForgetIsSafe(l, d);
    } else {
      ApplyIsSafe(l, d);
      FlushIsSafe(l.Apply(d), false);
    }
  }

  /** What the call does. A delivery of an aborted client, or one recorded before, is acknowledged and nothing
      else happens. Any other is applied last and recorded if it has a stamp; it is held, and if that fills
      the batch everything is saved and every held delivery acknowledged, this one among them. */
  lemma HandleDataDoes<E(!new)>(l: Ledger<E>, d: Delivery, every: nat)
    requires Idle(l, every) && d in l.unacked && d !in l.pending
    ensures var after, known := l.HandleData(d, every), d.msg.id.seqNo != 0 && d.msg.id in l.seen;
            if d.msg.client in l.aborted || known then after == l.(unacked := l.unacked - {d})
            else
              && after.applied == l.applied + [Data(d.msg)]
              && DataOf(after.applied) == DataOf(l.applied) + [d.msg]
              && after.seen == l.seen + (if d.msg.id.seqNo != 0 then {d.msg.id} else {})
              && after.aborted == l.aborted && after.published == l.published
              && if |l.pending| + 1 >= every
                 then && after.pending == [] && !after.dirty
                      && after.unacked == l.unacked - ElementsOf(l.pending + [d]) && d !in after.unacked
                      && after.store == Some(Checkpoint(after.applied, after.seen, after.aborted))
                 else && after.pending == l.pending + [d] && after.dirty
                      && after.unacked == l.unacked && after.store == l.store
  {
    hide Safe, DataOf, ElementsOf, Ledger.Flush;
    if !(d.msg.client in l.aborted || l.IsDuplicate(d.msg.id)) {
      ApplyIsSafe(l, d);
      FlushIsSafe(l.Apply(d), false);
      DataOfSnoc(l.applied, Data(d.msg));
      assert d in ElementsOf(l.pending + [d]) by { LastIsElement(l.pending, d); }
    }
  }

  lemma LastIsElement<T>(s: seq<T>, x: T)
    ensures x in ElementsOf(s + [x])
  {
    assert (s + [x])[|s|] == x;
  }

  lemma SameQueue<E(!new)>(l: Ledger<E>, after: Ledger<E>)
    requires NothingLost(l)
    requires after.unacked == l.unacked && after.pending == l.pending && after.published == l.published
    requires after.seen == l.seen && after.store == l.store && DataOf(after.applied) == DataOf(l.applied)
    ensures NothingLost(after)
  {
    hide DataOf;
    forall id ensures Outstanding(l, id) <==> Outstanding(after, id) {}
    forall id ensures Pending(l, id) <==> Pending(after, id) {}
    hide Outstanding, Pending;
  }

  lemma SameHolding<E(!new)>(l: Ledger<E>, after: Ledger<E>)
    requires Holding(l) && after.unacked == l.unacked && after.pending == l.pending && after.seen == l.seen
    ensures Holding(after)
  {}

  /** A control handler runs between two messages and leaves the data alone. */
  lemma HandleIsSafe<E(!new)>(l: Ledger<E>, e: E)
    requires Safe(l)
    ensures Safe(l.Handle(e))
  {
    hide ExactlyRecorded, DataOf, MessagesOf, NothingLost, Holding;
    var after := l.Handle(e);
    DataOfSnoc(l.applied, Control(e));
    assert DataOf(after.applied) == DataOf(l.applied);
    SameQueue(l, after);
    SameHolding(l, after);
  }

  lemma MarkIsSafe<E(!new)>(l: Ledger<E>, client: ClientId)
    requires Safe(l) && (l.pending != [] ==> l.dirty)
    ensures Safe(l.Mark(client))
  {
    hide ExactlyRecorded, DataOf, NothingLost, Holding;
    var after := l.Mark(client);
    assert l.pending == [] ==> MessagesOf(l.pending) == [];
    assert DataOf(l.applied) == DataOf(l.Durable().applied) + MessagesOf(l.pending);
    SameQueue(l, after);
    SameHolding(l, after);
  }

  /** Whatever the crash destroys, the broker delivers again. */
  lemma CrashIsSafe<E(!new)>(l: Ledger<E>, every: nat)
    requires Safe(l) && every > 0
    ensures Idle(l.Crash(), every)
  {
    hide ExactlyRecorded, DataOf, NothingLost;
    var after := l.Crash();
    assert MessagesOf([]) == [];
    CrashLosesNothing(l);
  }

  lemma CrashLosesNothing<E(!new)>(l: Ledger<E>)
    requires NothingLost(l) && Extends(l)
    ensures NothingLost(l.Crash())
  {
    hide DataOf, MessagesOf;
    var after := l.Crash();
    assert forall m :: m in DataOf(after.applied) ==> m in DataOf(l.applied);
    forall id ensures Outstanding(l, id) <==> Outstanding(after, id) {}
    hide Outstanding, Pending;
  }
}

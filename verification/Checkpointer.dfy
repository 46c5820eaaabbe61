/** Checkpointer: dedup and batched checkpointing for a stateful node. Acks are held until the
    checkpoint that covers them has been saved. Every method is one of the ledger's operations. */
module Checkpointer {
  import opened Common
  import opened Deduplicator
  import opened Ledger

  /** What the store holds: the whole state of the node in one atomic value. */
  datatype Blob<S> = Blob(state: S, dedup: Snapshot, aborted: set<ClientId>)

  /** The dedup table as a value. */
  datatype Table = Table(hi: map<Producer, nat>, ahead: map<Producer, set<int>>)

  ghost function Fold<S, E>(step: (S, Event<E>) -> S, initial: S, log: seq<Event<E>>): S {
    if log == [] then initial else step(Fold(step, initial, log[..|log| - 1]), log[|log| - 1])
  }

  lemma FoldSnoc<S, E>(step: (S, Event<E>) -> S, initial: S, log: seq<Event<E>>, e: Event<E>)
    ensures Fold(step, initial, log + [e]) == step(Fold(step, initial, log), e)
  {
    assert (log + [e])[..|log + [e]| - 1] == log;
  }

  /** The table records exactly these identities. */
  ghost predicate Tabled(t: Table, seen: set<Id>) {
    Canonical(t.hi, t.ahead) && forall id: Id :: id in seen <==> InTable(t, id)
  }

  ghost predicate InTable(t: Table, id: Id) {
    id.seqNo != 0 && id.seqNo in SeenBy(t.hi, t.ahead, id.producer)
  }

  /** The live state is the fold of exactly the applied events, and the live table records exactly
      their identities. */
  ghost predicate Live<S, E>(step: (S, Event<E>) -> S, initial: S, l: Ledger<E>, state: S, t: Table) {
    state == Fold(step, initial, l.applied) && Tabled(t, l.seen)
  }

  /** So are the saved ones, of exactly their own events. */
  ghost predicate Stored<S, E>(step: (S, Event<E>) -> S, initial: S, l: Ledger<E>, store: Option<Blob<S>>, t: Table) {
    match store
    case None => l.store.None?
    case Some(blob) =>
      && l.store.Some?
      && blob.state == Fold(step, initial, l.store.value.applied)
      && blob.dedup == Saved(t.hi, t.ahead) && Tabled(t, l.store.value.seen)
      && blob.aborted == l.store.value.aborted
  }

  lemma LiveFresh<S, E>(step: (S, Event<E>) -> S, initial: S)
    ensures Live(step, initial, Ledger<E>.Fresh(), initial, Table(map[], map[]))
  {}

  lemma LiveApply<S, E>(step: (S, Event<E>) -> S, initial: S, l: Ledger<E>, state: S, t: Table, d: Delivery,
                        after: Table)
    requires Live(step, initial, l, state, t)
    requires Canonical(after.hi, after.ahead)
    requires forall p :: SeenBy(after.hi, after.ahead, p) ==
                         SeenBy(t.hi, t.ahead, p)
                         + (if p == d.msg.id.producer && d.msg.id.seqNo != 0 then {d.msg.id.seqNo} else {})
    ensures Live(step, initial, l.Apply(d), step(state, Data(d.msg)), after)
  {
    FoldSnoc(step, initial, l.applied, Data(d.msg));
    hide SeenBy, Canonical, Fold;
    forall id: Id ensures id in l.Apply(d).seen <==> InTable(after, id) {
      assert id in l.seen <==> InTable(t, id);
    }
  }

  lemma LiveHandle<S, E>(step: (S, Event<E>) -> S, initial: S, l: Ledger<E>, state: S, t: Table, e: E)
    requires Live(step, initial, l, state, t)
    ensures Live(step, initial, l.Handle(e), step(state, Control(e)), t)
  {
    FoldSnoc(step, initial, l.applied, Control(e));
  }

  lemma LiveSave<S, E>(step: (S, Event<E>) -> S, initial: S, l: Ledger<E>, state: S, t: Table)
    requires Live(step, initial, l, state, t)
    ensures Stored(step, initial, l.Save(), Some(Blob(state, Saved(t.hi, t.ahead), l.aborted)), t)
  {}

  /** Restoring is going back to the checkpoint. */
  lemma LiveCrash<S, E>(step: (S, Event<E>) -> S, initial: S, l: Ledger<E>, store: Option<Blob<S>>, t: Table)
    requires Stored(step, initial, l, store, t)
    ensures if store.Some? then Live(step, initial, l.Crash(), store.value.state, t)
            else Live(step, initial, l.Crash(), initial, Table(map[], map[]))
    ensures Stored(step, initial, l.Crash(), store, t)
    ensures store.None? <==> l.store.None?
    ensures store.Some? ==>
            store.value.dedup == Saved(t.hi, t.ahead) && Canonical(t.hi, t.ahead)
            && store.value.aborted == l.Crash().aborted
  {
    LiveFresh(step, initial);
  }

  /** Effects that leave the applied events and the checkpoint alone. */
  lemma SameState<S, E>(step: (S, Event<E>) -> S, initial: S, l: Ledger<E>, after: Ledger<E>, state: S, t: Table)
    requires Live(step, initial, l, state, t)
    requires after.applied == l.applied && after.seen == l.seen
    ensures Live(step, initial, after, state, t)
  {}

  lemma SameStore<S, E>(step: (S, Event<E>) -> S, initial: S, l: Ledger<E>, after: Ledger<E>, store: Option<Blob<S>>,
                        t: Table)
    requires Stored(step, initial, l, store, t) && after.store == l.store
    ensures Stored(step, initial, after, store, t)
  {}

  /** The broker's side of one input queue. */
  class Queue {
    var unacked: set<Delivery>

    constructor ()
      ensures unacked == {}
    {
      unacked := {};
    }

    method Ack(d: Delivery)
      modifies this
      ensures unacked == old(unacked) - {d}
    {
      unacked := unacked - {d};
    }
  }

  class Checkpointer<S, E(!new)> {
    const step: (S, Event<E>) -> S
    const initial: S
    const every: nat
    const dedup: Deduplicator
    const queue: Queue
    var state: S
    var aborted: set<ClientId>
    var pendingAcks: seq<Delivery>
    var dirty: bool
    var store: Option<Blob<S>>
    ghost var ledger: Ledger<E>
    ghost var savedTable: Table

    ghost predicate Valid()
      reads this, dedup, queue
    {
      && every > 0
      && Live(step, initial, ledger, state, Table(dedup.hi, dedup.ahead))
      && Stored(step, initial, ledger, store, savedTable)
      && aborted == ledger.aborted && pendingAcks == ledger.pending && dirty == ledger.dirty
      && queue.unacked == ledger.unacked
    }

    constructor (step: (S, Event<E>) -> S, initial: S, checkpointEvery: int, dedup: Deduplicator, queue: Queue)
      requires dedup.hi == map[] && dedup.ahead == map[] && queue.unacked == {}
      ensures Valid() && ledger == Ledger<E>.Fresh() && Idle(ledger, every)
      ensures every == if checkpointEvery > 1 then checkpointEvery else 1
      ensures this.step == step && this.initial == initial && this.dedup == dedup && this.queue == queue
    {
      this.step, this.initial, this.dedup, this.queue := step, initial, dedup, queue;
      every := if checkpointEvery > 1 then checkpointEvery else 1;
      state, aborted, pendingAcks, dirty, store := initial, {}, [], false, None;
      ledger := Ledger<E>.Fresh();
      savedTable := Table(map[], map[]);
      new;
      LiveFresh(step, initial);
      FreshIsIdle<E>(every);
    }

    /** One data message: acknowledged at once when its client was aborted or it is a duplicate,
        otherwise applied, recorded and held, with a checkpoint when the batch is full. */
    method HandleData(d: Delivery) returns (ghost dropped: bool)
      requires Valid() && Idle(ledger, every)
      requires d in ledger.unacked && d !in ledger.pending
      modifies this, dedup, queue
      ensures Valid() && Idle(ledger, every)
      ensures ledger == old(ledger).HandleData(d, every)
      ensures dropped == (d.msg.client in old(aborted) || (d.msg.id.seqNo != 0 && d.msg.id in old(ledger.seen)))
      ensures dropped ==> ledger == old(ledger).(unacked := old(ledger.unacked) - {d}) && state == old(state)
      ensures !dropped ==> state == step(old(state), Data(d.msg))
      ensures !dropped ==> ledger.applied == old(ledger.applied) + [Data(d.msg)]
      ensures !dropped ==> ledger.seen == old(ledger.seen) + (if d.msg.id.seqNo != 0 then {d.msg.id} else {})
      ensures !dropped && |old(pendingAcks)| + 1 >= every ==>
                && pendingAcks == [] && queue.unacked == old(queue.unacked) - ElementsOf(old(pendingAcks) + [d])
                && ledger.Durable() == Checkpoint(ledger.applied, ledger.seen, ledger.aborted)
      ensures !dropped && |old(pendingAcks)| + 1 < every ==>
                && pendingAcks == old(pendingAcks) + [d] && queue.unacked == old(queue.unacked)
                && store == old(store)
    {
      HandleDataIsSafe(ledger, d, every);
      HandleDataDoes(ledger, d, every);
      hide Ledger.HandleData, Ledger.Flush, ElementsOf, DataOf, Live, Stored;
      if d.msg.client in aborted {
        AckNow(d);
        return true;
      }
      var duplicate := IsDuplicate(d.msg.id);
      if duplicate {
        AckNow(d);
        return true;
      }
      ApplyIsSafe(ledger, d);
      dropped := false;
      ValidIs();
      hide Idle, Safe, Valid;
      Apply(d);
      if |pendingAcks| >= every {
        FlushBatch();
      }
    }

    method FlushBatch()
      requires Valid() && Safe(ledger) && ledger.dirty
      modifies this, queue
      ensures Valid() && ledger == old(ledger).Flush(false)
      ensures state == old(state) && pendingAcks == []
              && queue.unacked == old(queue.unacked) - ElementsOf(old(pendingAcks))
    {
      hide Live, Stored, Safe;
      CheckpointAndFlush(false);
    }

    method AckNow(d: Delivery)
      requires Valid()
      modifies this`ledger, queue
      ensures Valid() && ledger == old(ledger).Ack(d)
      ensures queue.unacked == old(queue.unacked) - {d}
    {
      hide Live, Stored;
      SameState(step, initial, ledger, ledger.Ack(d), state, Table(dedup.hi, dedup.ahead));
      SameStore(step, initial, ledger, ledger.Ack(d), store, savedTable);
      queue.Ack(d);
      ledger := ledger.Ack(d);
    }

    lemma ValidIs()
      requires Valid()
      ensures every > 0 && aborted == ledger.aborted && pendingAcks == ledger.pending && dirty == ledger.dirty
      ensures queue.unacked == ledger.unacked
    {}

    method IsDuplicate(id: Id) returns (duplicate: bool)
      requires Valid()
      ensures duplicate == ledger.IsDuplicate(id)
    {
      assert id in ledger.seen <==> InTable(Table(dedup.hi, dedup.ahead), id);
      duplicate := dedup.IsDuplicate(id);
    }

    method Apply(d: Delivery)
      requires Valid()
      modifies this, dedup
      ensures Valid() && ledger == old(ledger).Apply(d)
      ensures pendingAcks == ledger.pending == old(pendingAcks) + [d] && dirty && store == old(store)
      ensures state == step(old(state), Data(d.msg)) && aborted == old(aborted)
      ensures ledger.applied == old(ledger.applied) + [Data(d.msg)]
    {
      ghost var before := Table(dedup.hi, dedup.ahead);
      assert dedup.Valid();
      hide Live, Stored;
      dedup.Record(d.msg.id);
      forall p ensures SeenBy(dedup.hi, dedup.ahead, p) ==
        SeenBy(before.hi, before.ahead, p)
        + (if p == d.msg.id.producer && d.msg.id.seqNo != 0 then {d.msg.id.seqNo} else {})
      {
        assert dedup.Seen(p)
               == old(dedup.Seen(p)) + (if p == d.msg.id.producer && d.msg.id.seqNo != 0 then {d.msg.id.seqNo} else {});
      }
      LiveApply(step, initial, ledger, state, before, d, Table(dedup.hi, dedup.ahead));
      SameStore(step, initial, ledger, ledger.Apply(d), store, savedTable);
      state := step(state, Data(d.msg));
      dirty := true;
      pendingAcks := pendingAcks + [d];
      ledger := ledger.Apply(d);
    }

    /** A control handler changes the state the checkpoint covers. */
    method Handle(e: E)
      requires Valid()
      modifies this
      ensures Valid() && ledger == old(ledger).Handle(e)
      ensures state == step(old(state), Control(e)) && ledger.applied == old(ledger.applied) + [Control(e)]
      ensures pendingAcks == old(pendingAcks) && dirty == old(dirty) && aborted == old(aborted) && store == old(store)
    {
      hide Live, Stored;
      LiveHandle(step, initial, ledger, state, Table(dedup.hi, dedup.ahead), e);
      SameStore(step, initial, ledger, ledger.Handle(e), store, savedTable);
      state := step(state, Control(e));
      ledger := ledger.Handle(e);
    }

    method MarkAborted(client: ClientId)
      requires Valid()
      modifies this
      ensures Valid() && ledger == old(ledger).Mark(client)
      ensures aborted == old(aborted) + {client} && dirty
      ensures state == old(state) && pendingAcks == old(pendingAcks) && store == old(store)
    {
      hide Live, Stored;
      SameState(step, initial, ledger, ledger.Mark(client), state, Table(dedup.hi, dedup.ahead));
      SameStore(step, initial, ledger, ledger.Mark(client), store, savedTable);
      aborted := aborted + {client};
      dirty := true;
      ledger := ledger.Mark(client);
    }

    method Flush(force: bool)
      requires Valid() && Safe(ledger) && (ledger.pending != [] ==> ledger.dirty)
      modifies this, queue
      ensures Valid() && ledger == old(ledger).Flush(force)
      ensures Flushed(force, old(state), old(aborted), old(dirty), old(store), old(pendingAcks), old(queue.unacked))
    {
      CheckpointAndFlush(force);
    }

    /** After a flush: the state is as before; when there was something to save or it was forced, it is in the
        store with the tombstones, which else is as before; nothing is held and every held delivery is
        acknowledged. */
    ghost predicate Flushed(force: bool, state0: S, aborted0: set<ClientId>, dirty0: bool, store0: Option<Blob<S>>,
                            held: seq<Delivery>, unacked0: set<Delivery>)
      reads this, queue
    {
      && state == state0 && aborted == aborted0 && !dirty && pendingAcks == []
      && queue.unacked == unacked0 - ElementsOf(held)
      && (if dirty0 || force then store.Some? && store.value.state == state && store.value.aborted == aborted
          else store == store0)
    }

    /** Saves if there is something to save, then acknowledges every held delivery. */
    method CheckpointAndFlush(force: bool)
      requires Valid() && Safe(ledger) && (ledger.pending != [] ==> ledger.dirty)
      modifies this, queue
      ensures Valid() && ledger == old(ledger).Flush(force)
      ensures Flushed(force, old(state), old(aborted), old(dirty), old(store), old(pendingAcks), old(queue.unacked))
    {
      FlushIsSafe(ledger, force);
      SaveIsSafe(ledger);
      hide Safe, Live, Stored;
      if dirty || force {
        Save();
      }
      AckPending();
    }

    /** The atomic replacement of the checkpoint. */
    method Save()
      requires Valid()
      modifies this
      ensures Valid() && ledger == old(ledger).Save()
      ensures store.Some? && store.value.state == state == old(state) && store.value.aborted == aborted == old(aborted)
      ensures !dirty && pendingAcks == old(pendingAcks)
    {
      hide Live, Stored;
      LiveSave(step, initial, ledger, state, Table(dedup.hi, dedup.ahead));
      SameState(step, initial, ledger, ledger.Save(), state, Table(dedup.hi, dedup.ahead));
      var snapshot := dedup.TakeSnapshot();
      store := Some(Blob(state, snapshot, aborted));
      dirty := false;
      savedTable := Table(dedup.hi, dedup.ahead);
      ledger := ledger.Save();
    }

    lemma AllAcked(l: Ledger<E>)
      requires Safe(l) && !l.dirty
      ensures l.AckAll().unacked == l.unacked - ElementsOf(l.pending)
    {
      hide Safe, ElementsOf;
      AckAllIsSafe(l);
    }

    /** After every single ack nothing published is lost, so a crash inside the loop is harmless. */
    method AckPending()
      requires Valid() && Safe(ledger) && !ledger.dirty
      modifies this, queue
      ensures Valid() && Safe(ledger) && ledger == old(ledger).AckAll()
      ensures pendingAcks == [] && queue.unacked == old(queue.unacked) - ElementsOf(old(pendingAcks))
      ensures !dirty && state == old(state) && aborted == old(aborted) && store == old(store)
    {
      hide Live, Stored, Safe, Ledger.AckAll, ElementsOf;
      AllAcked(ledger);
      var i := 0;
      ghost var target := ledger.AckAll();
      while i < |pendingAcks|
        invariant 0 <= i <= |pendingAcks| && pendingAcks == old(pendingAcks)
        invariant ledger.pending == pendingAcks[i..] && queue.unacked == ledger.unacked
        invariant Safe(ledger) && !ledger.dirty && ledger.AckAll() == target
        invariant !dirty && aborted == ledger.aborted
        invariant state == old(state) && aborted == old(aborted) && store == old(store) && savedTable == old(savedTable)
        invariant Live(step, initial, ledger, state, Table(dedup.hi, dedup.ahead))
                  && Stored(step, initial, ledger, store, savedTable)
      {
        AckedOne(ledger);
        queue.Ack(pendingAcks[i]);
        ledger := ledger.AckFirst();
        i := i + 1;
      }
      AckStep(ledger);
      pendingAcks := [];
    }

    lemma AckedOne(l: Ledger<E>)
      requires Safe(l) && !l.dirty && l.pending != []
      requires Live(step, initial, l, state, Table(dedup.hi, dedup.ahead))
               && Stored(step, initial, l, store, savedTable)
      ensures Safe(l.AckFirst()) && l.AckAll() == l.AckFirst().AckAll()
      ensures Live(step, initial, l.AckFirst(), state, Table(dedup.hi, dedup.ahead))
      ensures Stored(step, initial, l.AckFirst(), store, savedTable)
    {
      hide Live, Stored, Safe, Ledger.AckAll;
      AckFirstIsSafe(l);
      AckStep(l);
      SameState(step, initial, l, l.AckFirst(), state, Table(dedup.hi, dedup.ahead));
      SameStore(step, initial, l, l.AckFirst(), store, savedTable);
    }

    lemma AckStep(l: Ledger<E>)
      ensures l.AckAll() == if l.pending == [] then l else l.AckFirst().AckAll()
    {}

    /** The process dies and a new one restores the last checkpoint, or starts afresh without one. */
    method Restart() returns (restored: bool)
      requires Valid() && Safe(ledger)
      modifies this, dedup
      ensures Valid() && Idle(ledger, every)
      ensures restored <==> store.Some?
      ensures ledger == old(ledger).Crash()
      ensures store == old(store) && pendingAcks == [] && !dirty
      ensures state == (if restored then store.value.state else initial)
      ensures aborted == if restored then store.value.aborted else {}
    {
      hide Safe, Idle, Live, Stored, Saved, Canonical;
      CrashIsSafe(ledger, every);
      LiveCrash(step, initial, ledger, store, savedTable);
      state, aborted, pendingAcks, dirty := initial, {}, [], false;
      ledger := ledger.Crash();
      if store.None? {
        dedup.Reset();
        restored := false;
      } else {
        state := store.value.state;
        dedup.Restore(store.value.dedup, savedTable.hi, savedTable.ahead);
        aborted := store.value.aborted;
        restored := true;
      }
    }

    /** The route of an end-of-stream message: flush, let the handler change the state, make that
        durable before anything is emitted, record what was emitted, make that durable too. `emitting`
        is the node when it starts to emit. */
    method OnEof(arrival: E, report: Option<E>) returns (ghost emitting: Ledger<E>)
      requires Valid() && Idle(ledger, every)
      modifies this, queue
      ensures Valid() && Idle(ledger, every)
      ensures emitting.applied == old(ledger.applied) + [Control(arrival)] && Idle(emitting, every)
      ensures emitting.Durable() == Checkpoint(emitting.applied, emitting.seen, emitting.aborted)
              && emitting.pending == []
      ensures ledger.applied == emitting.applied + (if report.Some? then [Control(report.value)] else [])
      ensures ledger.Durable().applied == ledger.applied
      ensures ledger == old(ledger).HandleControl(arrival, report)
      ensures ledger.pending == [] && ledger.unacked == old(ledger.unacked) - ElementsOf(old(ledger.pending))
    {
      hide Valid, Safe, Ledger.Flush;
      Settle(false);
      HandleSettled(arrival);
      Settle(true);
      emitting := ledger;
      if report.Some? {
        HandleSettled(report.value);
        Settle(true);
      }
    }

    method HandleSettled(e: E)
      requires Valid() && Safe(ledger) && ledger.pending == []
      modifies this
      ensures Valid() && Safe(ledger) && ledger == old(ledger).Handle(e)
    {
      HandleIsSafe(ledger, e);
      hide Valid, Safe;
      Handle(e);
    }

    /** A flush and what it leaves. */
    method Settle(force: bool)
      requires Valid() && Safe(ledger) && (ledger.pending != [] ==> ledger.dirty)
      requires force || ledger.aborted == ledger.Durable().aborted
      modifies this, queue
      ensures Valid() && Idle(ledger, every) && ledger == old(ledger).Flush(force)
      ensures ledger.applied == old(ledger.applied) && ledger.aborted == old(ledger.aborted) && !ledger.dirty
      ensures ledger.pending == [] && ledger.unacked == old(ledger.unacked) - ElementsOf(old(ledger.pending))
      ensures force ==> ledger.Durable() == Checkpoint(ledger.applied, ledger.seen, ledger.aborted)
    {
      FlushIsSafe(ledger, force);
      hide Safe, Live, Stored;
      Flush(force);
    }

    lemma TombstoneIsStored(client: ClientId)
      requires Valid() && client in ledger.aborted && client in ledger.Durable().aborted
      ensures client in aborted && store.Some? && client in store.value.aborted
    {}

    /** The route of an abort: the client's state is dropped and its tombstone made durable before
        any later message of it is acknowledged unseen. */
    method OnAbort(client: ClientId, drop: E)
      requires Valid() && Idle(ledger, every)
      modifies this, queue
      ensures Valid() && Idle(ledger, every)
      ensures ledger.applied == old(ledger.applied) + [Control(drop)] && client in ledger.Durable().aborted
      ensures ledger == old(ledger).HandleAbort(client, drop)
      ensures client in aborted && store.Some? && client in store.value.aborted
    {
      HandleIsSafe(ledger, drop);
      MarkIsSafe(ledger.Handle(drop), client);
      hide Valid, Safe, Ledger.Flush;
      Handle(drop);
      MarkAborted(client);
      Settle(true);
      TombstoneIsStored(client);
    }
  }
}

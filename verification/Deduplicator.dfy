/** Deduplicator: per producer, a watermark below which every sequence number has been seen plus
    the set of numbers seen ahead of a gap. It behaves as the plain set of recorded numbers. */
module Deduplicator {
  import opened Common

  datatype Producer = Producer(name: int)

  /** A saved entry: the watermark and the sorted numbers ahead of it. */
  datatype Entry = Entry(hi: nat, ahead: seq<int>)
  type Snapshot = map<Producer, Entry>

  /** The identity a producer stamps on a message; sequence numbers start at one and zero marks
      a message that carries no identity. */
  datatype Id = Id(producer: Producer, seqNo: nat)

  /** The numbers from one to hi. */
  function UpTo(hi: nat): (numbers: set<int>)
    ensures forall s :: s in numbers <==> 1 <= s <= hi
  {
    if hi == 0 then {} else UpTo(hi - 1) + {hi}
  }

  /** The numbers recorded for a producer. */
  ghost function SeenBy(hi: map<Producer, nat>, ahead: map<Producer, set<int>>, p: Producer): set<int> {
    UpTo(NumberAt(hi, p)) + SetAt(ahead, p)
  }

  ghost predicate Beyond(mark: nat, numbers: set<int>) {
    forall s :: s in numbers ==> s > mark + 1
  }

  /** Everything ahead of the watermark lies beyond a gap, and only producers with something
      recorded have an entry. */
  ghost predicate Canonical(hi: map<Producer, nat>, ahead: map<Producer, set<int>>) {
    && (forall p :: p in hi <==> p in ahead)
    && (forall p :: p in ahead ==> Beyond(hi[p], ahead[p]))
    && (forall p :: p in hi ==> hi[p] > 0 || ahead[p] != {})
  }

  /** The set of recorded numbers determines the representation. */
  lemma CanonicalForm(hi1: map<Producer, nat>, ahead1: map<Producer, set<int>>, hi2: map<Producer, nat>,
                      ahead2: map<Producer, set<int>>)
    requires Canonical(hi1, ahead1) && Canonical(hi2, ahead2)
    requires forall p :: SeenBy(hi1, ahead1, p) == SeenBy(hi2, ahead2, p)
    ensures hi1 == hi2 && ahead1 == ahead2
  {
    forall p ensures NumberAt(hi1, p) == NumberAt(hi2, p) {
      WatermarkBound(hi1, ahead1, hi2, ahead2, p);
      WatermarkBound(hi2, ahead2, hi1, ahead1, p);
    }
    forall p ensures SetAt(ahead1, p) == SetAt(ahead2, p) {
      AheadIsBeyond(hi1, ahead1, p);
      AheadIsBeyond(hi2, ahead2, p);
    }
    forall p ensures p in hi1 <==> p in hi2 {
      EntryIffSeen(hi1, ahead1, p);
      EntryIffSeen(hi2, ahead2, p);
    }
    forall p | p in hi1 ensures hi1[p] == hi2[p] && ahead1[p] == ahead2[p] {
      assert NumberAt(hi1, p) == NumberAt(hi2, p) && SetAt(ahead1, p) == SetAt(ahead2, p);
    }
  }

  lemma WatermarkBound(hi1: map<Producer, nat>, ahead1: map<Producer, set<int>>, hi2: map<Producer, nat>,
                       ahead2: map<Producer, set<int>>, p: Producer)
    requires Canonical(hi1, ahead1)
    requires SeenBy(hi1, ahead1, p) == SeenBy(hi2, ahead2, p)
    ensures NumberAt(hi2, p) <= NumberAt(hi1, p)
  {
    var gap := NumberAt(hi1, p) + 1;
    assert gap !in SeenBy(hi1, ahead1, p);
    assert gap !in UpTo(NumberAt(hi2, p));
  }

  lemma AheadIsBeyond(hi: map<Producer, nat>, ahead: map<Producer, set<int>>, p: Producer)
    requires Canonical(hi, ahead)
    ensures SetAt(ahead, p) == SeenBy(hi, ahead, p) - UpTo(NumberAt(hi, p))
    ensures Beyond(NumberAt(hi, p), SetAt(ahead, p))
  {}

  lemma EntryIffSeen(hi: map<Producer, nat>, ahead: map<Producer, set<int>>, p: Producer)
    requires Canonical(hi, ahead)
    ensures p in hi <==> SeenBy(hi, ahead, p) != {}
  {
    if p in hi && hi[p] > 0 {
      assert 1 in UpTo(hi[p]);
    }
  }

  /** `sorted(s)`. */
  function Listing(s: set<int>): (list: seq<int>)
    ensures ElementsOf(list) == s
  {
    Sorted(s)
  }

  /** What a snapshot of this table holds. */
  function Saved(hi: map<Producer, nat>, ahead: map<Producer, set<int>>): Snapshot {
    map p | p in hi.Keys + ahead.Keys :: Entry(NumberAt(hi, p), Listing(SetAt(ahead, p)))
  }

  ghost function SavedHi(snapshot: Snapshot): map<Producer, nat> {
    map p | p in snapshot :: snapshot[p].hi
  }

  ghost function SavedAhead(snapshot: Snapshot): map<Producer, set<int>> {
    map p | p in snapshot :: ElementsOf(snapshot[p].ahead)
  }

  lemma SavedHolds(hi: map<Producer, nat>, ahead: map<Producer, set<int>>)
    requires Canonical(hi, ahead)
    ensures SavedHi(Saved(hi, ahead)) == hi && SavedAhead(Saved(hi, ahead)) == ahead
  {
    hide Listing, ElementsOf, Beyond;
  }

  /** The numbers of one producer in a log of recorded identities. */
  ghost function Recorded(log: seq<Id>, p: Producer): set<int> {
    set id | id in log && id.producer == p && id.seqNo != 0 :: id.seqNo
  }

  class Deduplicator {
    var hi: map<Producer, nat>
    var ahead: map<Producer, set<int>>

    ghost predicate Valid()
      reads this
    {
      Canonical(hi, ahead)
    }

    ghost function Seen(p: Producer): set<int>
      reads this
    {
      SeenBy(hi, ahead, p)
    }

    constructor ()
      ensures Valid() && hi == map[] && ahead == map[]
    {
      hi, ahead := map[], map[];
    }

    method IsDuplicate(id: Id) returns (duplicate: bool)
      requires Valid()
      ensures duplicate <==> id.seqNo != 0 && id.seqNo in Seen(id.producer)
    {
      if id.seqNo == 0 {
        return false;
      }
      if id.seqNo <= NumberAt(hi, id.producer) {
        return true;
      }
      duplicate := id.seqNo in SetAt(ahead, id.producer);
    }

    /** Adds the number to the producer's set, then moves the watermark over every number that
        has become contiguous. */
    method Record(id: Id)
      requires Valid()
      modifies this
      ensures Valid()
      ensures forall p :: Seen(p) == old(Seen(p)) + (if p == id.producer && id.seqNo != 0 then {id.seqNo} else {})
    {
      if id.seqNo == 0 {
        return;
      }
      var mark := NumberAt(hi, id.producer);
      if id.seqNo <= mark {
        return;
      }
      AheadIsBeyond(hi, ahead, id.producer);
      var beyond := SetAt(ahead, id.producer) + {id.seqNo};
      mark, beyond := Drain(mark, beyond);
      hi := hi[id.producer := mark];
      ahead := ahead[id.producer := beyond];
    }

    /** Moves the watermark over the numbers that follow it without a gap. */
    lemma UpToNext(hi: nat)
      ensures UpTo(hi + 1) == UpTo(hi) + {hi + 1}
    {}

    method Drain(hi0: nat, ahead0: set<int>) returns (hi: nat, ahead: set<int>)
      requires ahead0 != {} && forall s :: s in ahead0 ==> s > hi0
      ensures UpTo(hi) + ahead == UpTo(hi0) + ahead0
      ensures Beyond(hi, ahead)
      ensures hi > 0 || ahead != {}
    {
      hi, ahead := hi0, ahead0;
      hide UpTo;
      while hi + 1 in ahead
        invariant UpTo(hi) + ahead == UpTo(hi0) + ahead0
        invariant forall s :: s in ahead ==> s > hi
        invariant hi > 0 || ahead != {}
        decreases |ahead|
      {
        UpToNext(hi);
        hi := hi + 1;
        ahead := ahead - {hi};
      }
    }

    method RecordAll(log: seq<Id>)
      requires Valid()
      modifies this
      ensures Valid()
      ensures forall p :: Seen(p) == old(Seen(p)) + Recorded(log, p)
    {
      var i := 0;
      while i < |log|
        invariant 0 <= i <= |log| && Valid()
        invariant forall p :: Seen(p) == old(Seen(p)) + Recorded(log[..i], p)
      {
        Record(log[i]);
        assert log[..i + 1] == log[..i] + [log[i]];
        forall p ensures Recorded(log[..i + 1], p)
                      == Recorded(log[..i], p)
                        + (if p == log[i].producer && log[i].seqNo != 0 then {log[i].seqNo} else {})
        {
          RecordedSnoc(log[..i], log[i], p);
        }
        i := i + 1;
      }
      assert log[..i] == log;
    }

    method TakeSnapshot() returns (snapshot: Snapshot)
      ensures snapshot == Saved(hi, ahead)
    {
      snapshot := map p | p in hi.Keys + ahead.Keys :: Entry(NumberAt(hi, p), Listing(SetAt(ahead, p)));
    }

    /** A new process starts with an empty table. */
    method Reset()
      modifies this
      ensures hi == map[] && ahead == map[]
    {
      hi, ahead := map[], map[];
    }

    /** Restoring what a table saved gives back that table. */
    method Restore(snapshot: Snapshot, ghost savedHi: map<Producer, nat>, ghost savedAhead: map<Producer, set<int>>)
      requires Canonical(savedHi, savedAhead) && snapshot == Saved(savedHi, savedAhead)
      modifies this
      ensures Valid() && hi == savedHi && ahead == savedAhead
    {
      SavedHolds(savedHi, savedAhead);
      hide Saved, Canonical;
      hi, ahead := Rebuild(snapshot);
    }

    method Rebuild(snapshot: Snapshot) returns (hi: map<Producer, nat>, ahead: map<Producer, set<int>>)
      ensures hi == SavedHi(snapshot) && ahead == SavedAhead(snapshot)
    {
      hi, ahead := map[], map[];
      var todo := snapshot.Keys;
      hide ElementsOf;
      while todo != {}
        invariant todo <= snapshot.Keys
        invariant hi == map p | p in snapshot && p !in todo :: snapshot[p].hi
        invariant ahead == map p | p in snapshot && p !in todo :: ElementsOf(snapshot[p].ahead)
        decreases |todo|
      {
        var p := Choose(todo);
        hi := hi[p := snapshot[p].hi];
        ahead := ahead[p := ElementsOf(snapshot[p].ahead)];
        todo := todo - {p};
      }
    }
  }

  lemma RecordedSnoc(log: seq<Id>, id: Id, p: Producer)
    ensures Recorded(log + [id], p) == Recorded(log, p) + (if p == id.producer && id.seqNo != 0 then {id.seqNo} else {})
  {
    forall s
      ensures s in Recorded(log + [id], p) <==>
              s in Recorded(log, p) || (p == id.producer && id.seqNo != 0 && s == id.seqNo)
    {
      assert forall x :: x in log + [id] <==> x in log || x == id;
    }
  }

  /** Recording the same identities in any order and with any repetition leaves the same snapshot. */
  method OrderDoesNotMatter(a: seq<Id>, b: seq<Id>) returns (snapshotA: Snapshot, snapshotB: Snapshot)
    requires forall id :: id in a <==> id in b
    ensures snapshotA == snapshotB
  {
    var first := new Deduplicator();
    var second := new Deduplicator();
    first.RecordAll(a);
    second.RecordAll(b);
    forall p ensures SeenBy(first.hi, first.ahead, p) == SeenBy(second.hi, second.ahead, p) {
      assert first.Seen(p) == Recorded(a, p) && second.Seen(p) == Recorded(b, p);
      assert forall id :: id in a <==> id in b;
    }
    CanonicalForm(first.hi, first.ahead, second.hi, second.ahead);
    snapshotA := first.TakeSnapshot();
    snapshotB := second.TakeSnapshot();
  }
}

/** Grouping a stream into batches of a given size, as the client does with parsed lines and the spill
    with the lines of a response. */
module Batching {
  import opened Common

  /** Batches of the given size, the last one possibly shorter, none empty. */
  ghost predicate Batched<T>(batches: seq<seq<T>>, size: int) {
    && (forall i :: 0 <= i < |batches| ==> batches[i] != [] && (|batches[i]| <= size || |batches[i]| == 1))
    && (forall i :: 0 <= i < |batches| - 1 ==> |batches[i]| >= size)
  }

  /** The batches pushed so far and the one being filled hold these lines. */
  ghost predicate Filling<T(!new)>(batches: seq<seq<T>>, batch: seq<T>, size: int, lines: seq<T>) {
    && Flatten(batches) + batch == lines
    && Batched(batches, size)
    && (forall i :: 0 <= i < |batches| ==> |batches[i]| >= size)
    && (batch == [] || |batch| < size)
  }

  lemma FillingPush<T(!new)>(batches: seq<seq<T>>, batch: seq<T>, size: int, lines: seq<T>, line: T)
    requires Filling(batches, batch, size, lines)
    ensures if |batch + [line]| >= size then Filling(batches + [batch + [line]], [], size, lines + [line])
            else Filling(batches, batch + [line], size, lines + [line])
  {
    FlattenSnoc(batches, batch + [line]);
    assert Flatten(batches) + (batch + [line]) == lines + [line];
    hide Flatten;
  }

  method Push<T(!new)>(batches0: seq<seq<T>>, batch0: seq<T>, line: T, size: int, ghost lines: seq<T>)
    returns (batches: seq<seq<T>>, batch: seq<T>)
    requires Filling(batches0, batch0, size, lines)
    ensures Filling(batches, batch, size, lines + [line])
  {
    FillingPush(batches0, batch0, size, lines, line);
    hide Filling;
    batches, batch := batches0, batch0 + [line];
    if |batch| >= size {
      batches := batches + [batch];
      batch := [];
    }
  }

  method PushRest<T(!new)>(batches0: seq<seq<T>>, batch: seq<T>, size: int, ghost lines: seq<T>)
    returns (batches: seq<seq<T>>)
    requires Filling(batches0, batch, size, lines)
    ensures Batched(batches, size) && Flatten(batches) == lines
  {
    batches := batches0;
    if batch != [] {
      FlattenSnoc(batches, batch);
      batches := batches + [batch];
    }
  }
}

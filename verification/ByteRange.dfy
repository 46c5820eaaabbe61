/** The client's input split: worker processes parse disjoint byte ranges of one file. A worker seeks
    to its start, drops the line it lands in and reads lines until one starts at or past its end. */
module ByteRange {
  import opened Common
  import opened Batching

  type File = seq<int>
  type Text = seq<int>

  const NEWLINE := 10

  /** Where `readline` at p stops: just past the next newline, or at the end of the file. */
  function LineEnd(f: File, p: nat): (q: nat)
    requires p <= |f|
    ensures p <= q <= |f|
    ensures p < |f| ==> p < q
    ensures forall k :: p <= k < q - 1 ==> f[k] != NEWLINE
    ensures p < q < |f| ==> f[q - 1] == NEWLINE
    decreases |f| - p
  {
    if p == |f| then p else if f[p] == NEWLINE then p + 1 else LineEnd(f, p + 1)
  }

  predicate IsStart(f: File, p: nat) {
    p < |f| && (p == 0 || f[p - 1] == NEWLINE)
  }

  /** The line starts from p on, below e. */
  function StartsFrom(f: File, p: nat, e: int): seq<nat>
    decreases |f| - p
  {
    if p >= |f| || p >= e then []
    else if IsStart(f, p) then [p] + StartsFrom(f, p + 1, e)
    else StartsFrom(f, p + 1, e)
  }

  lemma {:induction false} StartsAre(f: File, p: nat, e: int, x: nat)
    ensures x in StartsFrom(f, p, e) <==> IsStart(f, x) && p <= x < e
    decreases |f| - p
  {
    if p < |f| && p < e {
      StartsAre(f, p + 1, e, x);
    }
  }

  function LinesFrom(f: File, starts: seq<nat>): seq<Text> {
    if starts == [] then []
    else LinesFrom(f, starts[..|starts| - 1]) + [LineAt(f, starts[|starts| - 1])]
  }

  function LineAt(f: File, p: nat): Text {
    if p <= |f| then f[p..LineEnd(f, p)] else []
  }

  /** A line is the text from its start up to and with the next newline, or to the end of the file. */
  lemma LineAtIs(f: File, p: nat)
    requires p < |f|
    ensures var line := LineAt(f, p);
            && line != [] && p + |line| <= |f| && line == f[p..p + |line|]
            && (forall k :: 0 <= k < |line| - 1 ==> line[k] != NEWLINE)
            && (line[|line| - 1] == NEWLINE || p + |line| == |f|)
  {}

  /** The lines of a file, one after the other, are the file. */
  lemma {:induction false} LinesAreTheFile(f: File, p: nat)
    requires IsStart(f, p) || p == |f|
    ensures Flatten(LinesFrom(f, StartsFrom(f, p, |f|))) == f[p..]
    decreases |f| - p
  {
    if p < |f| {
      var q := LineEnd(f, p);
      NextStart(f, p, |f|);
      LinesAreTheFile(f, q);
      LinesCons(f, p, StartsFrom(f, q, |f|));
      FlattenCons(LineAt(f, p), LinesFrom(f, StartsFrom(f, q, |f|)));
      assert f[p..] == f[p..q] + f[q..];
    }
  }

  lemma {:induction false} LinesCons(f: File, p: nat, starts: seq<nat>)
    ensures LinesFrom(f, [p] + starts) == [LineAt(f, p)] + LinesFrom(f, starts)
  {
    hide LineAt;
    if starts == [] {
      assert [p] + starts == [] + [p];
      LinesSnoc(f, [], p);
    } else {
      var n := |starts| - 1;
      LinesCons(f, p, starts[..n]);
      assert [p] + starts == ([p] + starts[..n]) + [starts[n]] && starts == starts[..n] + [starts[n]];
      LinesSnoc(f, [p] + starts[..n], starts[n]);
      LinesSnoc(f, starts[..n], starts[n]);
    }
  }

  lemma LinesNone(f: File)
    ensures LinesFrom(f, []) == []
  {}

  lemma LinesSnoc(f: File, starts: seq<nat>, p: nat)
    ensures LinesFrom(f, starts + [p]) == LinesFrom(f, starts) + [LineAt(f, p)]
  {
    assert (starts + [p])[..|starts + [p]| - 1] == starts;
  }

  /** Between p and the end of its line no line starts. */
  lemma {:induction false} SkipLine(f: File, p: nat, e: int)
    requires p < |f|
    ensures StartsFrom(f, p + 1, e) == StartsFrom(f, LineEnd(f, p), e)
    decreases |f| - p
  {
    if f[p] != NEWLINE && p + 1 < |f| {
      SkipLine(f, p + 1, e);
    }
  }

  /** readline never stops inside a line. */
  lemma {:induction false} EndsAtStart(f: File, p: nat)
    requires p <= |f|
    ensures p < |f| && LineEnd(f, p) < |f| ==> IsStart(f, LineEnd(f, p))
    decreases |f| - p
  {
    if p < |f| && f[p] != NEWLINE {
      EndsAtStart(f, p + 1);
      if p + 1 == |f| {
        assert LineEnd(f, p + 1) == |f|;
      }
    }
  }

  /** Reading the line at pos takes the first of the starts still to come. */
  lemma NextStart(f: File, pos: nat, end: int)
    requires IsStart(f, pos) && pos < end
    ensures StartsFrom(f, pos, end) == [pos] + StartsFrom(f, LineEnd(f, pos), end)
    ensures LineAt(f, pos) != []
    ensures LineEnd(f, pos) < |f| ==> IsStart(f, LineEnd(f, pos))
  {
    SkipLine(f, pos, end);
    EndsAtStart(f, pos);
  }

  /** Where a worker starts reading: past the line it landed in, at the first start after its bound. */
  lemma FirstStart(f: File, start: nat, end: int)
    requires start <= |f|
    ensures StartsFrom(f, start + 1, end) == StartsFrom(f, LineEnd(f, start), end)
    ensures LineEnd(f, start) < |f| ==> IsStart(f, LineEnd(f, start))
  {
    if start < |f| {
      SkipLine(f, start, end);
    }
    EndsAtStart(f, start);
  }

  method ReadLine(f: File, pos: nat) returns (line: Text, next: nat)
    requires pos <= |f|
    ensures line == LineAt(f, pos) && next == LineEnd(f, pos)
    ensures line == [] <==> pos == |f|
  {
    next := LineEnd(f, pos);
    line := f[pos..next];
  }

  /** The lines read so far, `done`, and those still to come are the worker's. */
  ghost predicate Reading(f: File, starts: seq<nat>, done: seq<nat>, pos: nat, end: int, batches: seq<seq<Text>>,
                          batch: seq<Text>, size: int)
  {
    && pos <= |f| && (pos < |f| ==> IsStart(f, pos))
    && starts == done + StartsFrom(f, pos, end)
    && Filling(batches, batch, size, LinesFrom(f, done))
  }

  lemma ReadingStarts(f: File, start: nat, end: int, size: int)
    requires start <= |f|
    ensures LineEnd(f, start) <= |f|
    ensures Reading(f, StartsFrom(f, start + 1, end), [], LineEnd(f, start), end, [], [], size)
  {
    hide StartsFrom, LineEnd;
    FirstStart(f, start, end);
    assert [] + StartsFrom(f, LineEnd(f, start), end) == StartsFrom(f, LineEnd(f, start), end);
  }

  /** One line more. */
  method TakeLine(f: File, ghost starts: seq<nat>, ghost done: seq<nat>, ghost pos: nat, line: Text, ghost end: nat,
                  batches0: seq<seq<Text>>, batch0: seq<Text>, size: int)
    returns (batches: seq<seq<Text>>, batch: seq<Text>)
    requires Reading(f, starts, done, pos, end, batches0, batch0, size) && pos < |f| && pos < end
             && line == LineAt(f, pos)
    ensures Reading(f, starts, done + [pos], LineEnd(f, pos), end, batches, batch, size)
  {
    hide StartsFrom, Filling, LinesFrom, LineAt, LineEnd;
    NextStart(f, pos, end);
    LinesSnoc(f, done, pos);
    batches, batch := Push(batches0, batch0, line, size, LinesFrom(f, done));
    assert (done + [pos]) + StartsFrom(f, LineEnd(f, pos), end) == done + ([pos] + StartsFrom(f, LineEnd(f, pos), end));
  }

  lemma ReadingEnds(f: File, starts: seq<nat>, done: seq<nat>, pos: nat, end: int, batches: seq<seq<Text>>,
                    batch: seq<Text>, size: int)
    requires Reading(f, starts, done, pos, end, batches, batch, size) && (pos >= |f| || pos >= end)
    ensures Filling(batches, batch, size, LinesFrom(f, starts))
  {
    hide StartsFrom, Filling, LinesFrom;
    Exhausted(f, pos, end);
    assert done == starts;
  }

  /** The worker on [start, end) parses exactly the lines that start strictly between its bounds, in
      order. */
  method TransactionsWorker(f: File, start: nat, end: nat, batchSize: int) returns (batches: seq<seq<Text>>)
    requires start <= |f|
    ensures Flatten(batches) == LinesFrom(f, StartsFrom(f, start + 1, end))
    ensures Batched(batches, batchSize)
  {
    hide *;
    batches := [];
    var batch: seq<Text> := [];
    var pos := LineEnd(f, start);
    ghost var starts := StartsFrom(f, start + 1, end);
    ghost var done: seq<nat> := [];
    ReadingStarts(f, start, end, batchSize);
    while pos < end
      invariant pos <= |f| && Reading(f, starts, done, pos, end, batches, batch, batchSize)
      decreases |f| - pos
    {
      var line, next := ReadLine(f, pos);
      if line == [] {
        break;
      }
      batches, batch := TakeLine(f, starts, done, pos, line, end, batches, batch, batchSize);
      done := done + [pos];
      pos := next;
    }
    ReadingEnds(f, starts, done, pos, end, batches, batch, batchSize);
    batches := PushRest(batches, batch, batchSize, LinesFrom(f, starts));
  }

  lemma Exhausted(f: File, pos: nat, end: int)
    requires pos >= |f| || pos >= end
    ensures StartsFrom(f, pos, end) == []
  {}

  // ---- All the workers together ----------------------------------------------------------------------

  /** Where worker i begins: `i * size // n`. */
  function Bound(size: nat, n: nat, i: nat): (b: nat)
    requires n > 0
    ensures b * n <= i * size < (b + 1) * n
  {
    var b := i * size / n;
    assert i * size == b * n + i * size % n;
    assert (b + 1) * n == b * n + n;
    b
  }

  lemma QuotientMonotone(a: nat, b: nat, n: nat)
    requires n > 0 && a <= b
    ensures a / n <= b / n
  {
    var d := b / n - a / n;
    assert b - a == d * n + (b % n - a % n);
    if d < 0 {
      NegativeMultiple(d, n);
    }
  }

  lemma NegativeMultiple(d: int, n: nat)
    requires d < 0
    ensures d * n + n <= 0
  {}

  lemma BoundsGrow(size: nat, n: nat, i: nat, j: nat)
    requires n > 0 && i <= j
    ensures Bound(size, n, i) <= Bound(size, n, j)
  {
    assert (j - i) * size >= 0;
    assert j * size == i * size + (j - i) * size;
    QuotientMonotone(i * size, j * size, n);
  }

  lemma BoundsEnd(size: nat, n: nat)
    requires n > 0
    ensures Bound(size, n, 0) == 0 && Bound(size, n, n) == size
  {
    var q := n * size / n - size;
    assert n * size == (n * size / n) * n + n * size % n;
    assert q * n == -(n * size % n);
    if q < 0 {
      NegativeMultiple(q, n);
    } else if q > 0 {
      NegativeMultiple(-q, n);
    }
  }

  /** A worker's first byte, position 0 and with it the header included. */
  ghost predicate OnBound(size: nat, n: nat, p: nat)
    requires n > 0
  {
    exists i: nat :: i < n && p == Bound(size, n, i)
  }

  /** Where the lines that worker i parses start. */
  ghost function PartOf(f: File, n: nat, i: nat): seq<nat>
    requires n > 0
  {
    StartsFrom(f, Bound(|f|, n, i) + 1, Bound(|f|, n, i + 1))
  }

  lemma InPart(f: File, n: nat, i: nat, p: nat)
    requires n > 0
    ensures p in PartOf(f, n, i) <==> IsStart(f, p) && Bound(|f|, n, i) < p < Bound(|f|, n, i + 1)
  {
    StartsAre(f, Bound(|f|, n, i) + 1, Bound(|f|, n, i + 1), p);
  }

  /** No line is parsed twice. */
  lemma OneOwner(f: File, n: nat, p: nat, i: nat, j: nat)
    requires n > 0 && p in PartOf(f, n, i) && p in PartOf(f, n, j)
    ensures i == j
  {
    hide *;
    InPart(f, n, i, p);
    InPart(f, n, j, p);
    if i < j {
      BoundsGrow(|f|, n, i + 1, j);
    } else if j < i {
      BoundsGrow(|f|, n, j + 1, i);
    }
  }

  lemma {:induction false} LastBoundBelow(size: nat, n: nat, p: nat, k: nat) returns (i: nat)
    requires n > 0 && 0 < p < Bound(size, n, k) && k <= n
    ensures i < k && Bound(size, n, i) <= p < Bound(size, n, i + 1)
    decreases k
  {
    BoundsEnd(size, n);
    if Bound(size, n, k - 1) <= p {
      i := k - 1;
    } else {
      i := LastBoundBelow(size, n, p, k - 1);
    }
  }

  lemma NotInside(size: nat, n: nat, p: nat, i: nat)
    requires n > 0 && Bound(size, n, i) < p < Bound(size, n, i + 1)
    ensures !OnBound(size, n, p)
  {
    hide Bound;
    forall k: nat | k < n ensures p != Bound(size, n, k) {
      if i < k {
        BoundsGrow(size, n, i + 1, k);
      } else {
        BoundsGrow(size, n, k, i);
      }
    }
  }

  lemma Parsed(f: File, n: nat, p: nat) returns (i: nat)
    requires n > 0 && IsStart(f, p) && !OnBound(|f|, n, p)
    ensures i < n && p in PartOf(f, n, i)
  {
    hide Bound, PartOf;
    BoundsEnd(|f|, n);
    assert p != Bound(|f|, n, 0);
    i := LastBoundBelow(|f|, n, p, n);
    assert p != Bound(|f|, n, i);
    InPart(f, n, i, p);
  }

  /** A line of the file is parsed by exactly one worker, unless it starts on the first byte of a
      worker's range, the header included: then by none. */
  lemma ParsedUnlessOnBound(f: File, n: nat, p: nat)
    requires n > 0 && IsStart(f, p)
    ensures |set i: nat | i < n && p in PartOf(f, n, i)| == if OnBound(|f|, n, p) then 0 else 1
  {
    hide PartOf, IsStart, Bound;
    var owners := set i: nat | i < n && p in PartOf(f, n, i);
    if OnBound(|f|, n, p) {
      forall i: nat | i < n ensures p !in PartOf(f, n, i) {
        if p in PartOf(f, n, i) {
          InPart(f, n, i, p);
          NotInside(|f|, n, p, i);
        }
      }
      assert owners == {};
    } else {
      var i := Parsed(f, n, p);
      forall j | j in owners ensures j == i {
        OneOwner(f, n, p, i, j);
      }
      assert owners == {i};
    }
  }

  /** The line starts from p on, below e, that are no worker's first byte. */
  ghost function StartsOffBounds(f: File, n: nat, p: nat, e: int): seq<nat>
    requires n > 0
    decreases |f| - p
  {
    if p >= |f| || p >= e then []
    else (if IsStart(f, p) && !OnBound(|f|, n, p) then [p] else []) + StartsOffBounds(f, n, p + 1, e)
  }

  lemma {:induction false} StartsSplit(f: File, n: nat, p: nat, m: nat, e: int)
    requires n > 0 && p <= m <= e
    ensures StartsOffBounds(f, n, p, m) + StartsOffBounds(f, n, m, e) == StartsOffBounds(f, n, p, e)
    decreases |f| - p
  {
    hide OnBound, IsStart;
    if p < |f| && p < m {
      StartsSplit(f, n, p + 1, m, e);
    }
  }

  lemma {:induction false} StartsInside(f: File, n: nat, i: nat, p: nat)
    requires n > 0 && Bound(|f|, n, i) < p
    ensures StartsFrom(f, p, Bound(|f|, n, i + 1)) == StartsOffBounds(f, n, p, Bound(|f|, n, i + 1))
    decreases |f| - p
  {
    hide Bound, IsStart;
    if p < |f| && p < Bound(|f|, n, i + 1) {
      NotInside(|f|, n, p, i);
      StartsInside(f, n, i, p + 1);
    }
  }

  /** One worker's part is what its range has off the bounds. */
  lemma PartIsRange(f: File, n: nat, i: nat)
    requires n > 0 && i < n
    ensures PartOf(f, n, i) == StartsOffBounds(f, n, Bound(|f|, n, i), Bound(|f|, n, i + 1))
  {
    hide Bound, IsStart;
    assert OnBound(|f|, n, Bound(|f|, n, i));
    StartsInside(f, n, i, Bound(|f|, n, i) + 1);
  }

  /** All the workers together: every line of the file that starts off the bounds is parsed, once, and
      nothing else is. The batches are listed worker by worker. */
  method AllWorkers(f: File, n: nat, batchSize: int) returns (batches: seq<seq<Text>>)
    requires n > 0
    ensures Flatten(batches) == LinesFrom(f, StartsOffBounds(f, n, 0, |f|))
    ensures forall b :: b in batches ==> b != []
  {
    hide *;
    batches := [];
    var i := 0;
    NothingYet(f, n);
    while i < n
      invariant 0 <= i <= n && Covers(f, n, i, batches)
    {
      BoundsGrow(|f|, n, i, n);
      BoundsEnd(|f|, n);
      var part := TransactionsWorker(f, Bound(|f|, n, i), Bound(|f|, n, i + 1), batchSize);
      CoversMore(f, n, i, batches, part, batchSize);
      batches := batches + part;
      i := i + 1;
    }
    CoversAll(f, n, batches);
  }

  /** The first i workers have parsed their ranges. */
  ghost predicate Covers(f: File, n: nat, i: nat, batches: seq<seq<Text>>)
    requires n > 0
  {
    && Flatten(batches) == LinesFrom(f, StartsOffBounds(f, n, 0, Bound(|f|, n, i)))
    && forall k :: 0 <= k < |batches| ==> batches[k] != []
  }

  lemma NothingYet(f: File, n: nat)
    requires n > 0
    ensures Covers(f, n, 0, [])
  {
    BoundsEnd(|f|, n);
  }

  lemma CoversAll(f: File, n: nat, batches: seq<seq<Text>>)
    requires n > 0 && Covers(f, n, n, batches)
    ensures Flatten(batches) == LinesFrom(f, StartsOffBounds(f, n, 0, |f|))
    ensures forall b :: b in batches ==> b != []
  {
    hide Flatten, LinesFrom, StartsOffBounds, Bound;
    BoundsEnd(|f|, n);
  }

  lemma CoversMore(f: File, n: nat, i: nat, batches: seq<seq<Text>>, part: seq<seq<Text>>, batchSize: int)
    requires n > 0 && i < n && Covers(f, n, i, batches) && Batched(part, batchSize)
    requires Flatten(part) == LinesFrom(f, StartsFrom(f, Bound(|f|, n, i) + 1, Bound(|f|, n, i + 1)))
    ensures Covers(f, n, i + 1, batches + part)
  {
    hide Flatten, LinesFrom, StartsFrom, StartsOffBounds, Bound;
    FlattenConcat(batches, part);
    PartIsRange(f, n, i);
    BoundsGrow(|f|, n, i, i + 1);
    StartsSplit(f, n, 0, Bound(|f|, n, i), Bound(|f|, n, i + 1));
    LinesConcat(f, StartsOffBounds(f, n, 0, Bound(|f|, n, i)), PartOf(f, n, i));
  }

  lemma {:induction false} LinesConcat(f: File, a: seq<nat>, b: seq<nat>)
    ensures LinesFrom(f, a + b) == LinesFrom(f, a) + LinesFrom(f, b)
    decreases |b|
  {
    hide *;
    if b == [] {
      assert a + b == a;
      LinesNone(f);
    } else {
      var front, last := b[..|b| - 1], b[|b| - 1];
      LinesConcat(f, a, front);
      LinesSnoc(f, a + front, last);
      LinesSnoc(f, front, last);
      assert b == front + [last] && a + b == a + front + [last];
    }
  }

  /** The split's promise that a worker owns every line starting in its range fails at the range's
      first byte: here the second line starts where the second of two workers does, and neither
      parses it. */
  lemma LineOnBoundIsLost()
    ensures var f := [65, NEWLINE, 66, NEWLINE];
            IsStart(f, 2) && Bound(|f|, 2, 1) == 2 && PartOf(f, 2, 0) == [] && PartOf(f, 2, 1) == []
  {
    var f := [65, NEWLINE, 66, NEWLINE];
    assert Bound(|f|, 2, 0) == 0 && Bound(|f|, 2, 1) == 2 && Bound(|f|, 2, 2) == 4;
    assert StartsFrom(f, 1, 2) == [] && StartsFrom(f, 3, 4) == [];
  }
}

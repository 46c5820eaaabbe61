/** Replay consistency: a node stamps every output with its route's own counter as it processes its
    input. When un-acknowledged inputs come back in their original order after a crash, every output
    of every incarnation carries the stamp it would have had without crashes, so a deduplicating
    consumer sees exactly the crash-free sequence of outputs. */
module Replay {
  import opened Common
  import opened Deduplicator
  import opened Ledger

  // ---- Stamps ----------------------------------------------------------------------------------

  type Route = int

  datatype Send = Send(route: Route, payload: int)

  /** An output as published: the route stands for its producer id. */
  datatype Output = Output(route: Route, seqNo: nat, payload: int)

  ghost function On(route: Route): Send -> nat {
    (s: Send) => if s.route == route then 1 else 0
  }

  ghost function CountOn(sends: seq<Send>, route: Route): nat {
    SumOf(On(route), sends)
  }

  lemma CountOnSnoc(sends: seq<Send>, s: Send, route: Route)
    ensures CountOn(sends + [s], route) == CountOn(sends, route) + (if s.route == route then 1 else 0)
  {
    SumOfConcat(On(route), sends, [s]);
    SumOfOne(On(route), s);
  }

  /** The i-th output ever sent is the n-th on its route. */
  ghost function StampAt(sends: seq<Send>, i: nat): Output
    requires i < |sends|
  {
    Output(sends[i].route, CountOn(sends[..i + 1], sends[i].route), sends[i].payload)
  }

  ghost function StampAll(sends: seq<Send>): (stamps: seq<Output>)
    ensures |stamps| == |sends|
  {
    seq(|sends|, i requires 0 <= i < |sends| => StampAt(sends, i))
  }

  lemma StampPrefix(a: seq<Send>, b: seq<Send>)
    requires a <= b
    ensures StampAll(a) <= StampAll(b)
  {
    forall i | 0 <= i < |a| ensures StampAt(a, i) == StampAt(b, i) {
      assert a[..i + 1] == b[..i + 1];
    }
  }

  /** A stamp names one position in the sequence of sends. */
  lemma StampsAreDistinct(sends: seq<Send>, i: nat, j: nat)
    requires i < j < |sends| && sends[i].route == sends[j].route
    ensures StampAt(sends, i).seqNo < StampAt(sends, j).seqNo
  {
    var route := sends[j].route;
    assert sends[..j] == sends[..i + 1] + sends[i + 1..j];
    SumOfConcat(On(route), sends[..i + 1], sends[i + 1..j]);
    assert sends[..j + 1] == sends[..j] + [sends[j]];
    CountOnSnoc(sends[..j], sends[j], route);
  }

  /** A route's count is the number of its sends. */
  lemma {:induction false} CountOnIs(sends: seq<Send>, route: Route)
    ensures CountOn(sends, route) == |set i | 0 <= i < |sends| && sends[i].route == route|
  {
    hide CountOn;
    if sends == [] {
      NoneOn(route);
    } else {
      var n := |sends| - 1;
      assert sends == sends[..n] + [sends[n]];
      CountOnIs(sends[..n], route);
      CountOnSnoc(sends[..n], sends[n], route);
      OneMoreOn(sends, route);
    }
  }

  lemma NoneOn(route: Route)
    ensures CountOn([], route) == 0
  {}

  lemma OneMoreOn(sends: seq<Send>, route: Route)
    requires sends != []
    ensures var n := |sends| - 1;
            |set i | 0 <= i < |sends| && sends[i].route == route|
            == |set i | 0 <= i < |sends[..n]| && sends[..n][i].route == route|
               + (if sends[n].route == route then 1 else 0)
  {
    var n := |sends| - 1;
    var here := set i | 0 <= i < |sends| && sends[i].route == route;
    var before := set i | 0 <= i < |sends[..n]| && sends[..n][i].route == route;
    assert here == if sends[n].route == route then before + {n} else before;
  }

  /** The numbers on a route are 1, 2, and so on up to its count, with no gap; none is zero, which would
      mean a message without a stamp. */
  lemma {:induction false} StampsCountUp(sends: seq<Send>, route: Route, seqNo: nat)
    ensures 1 <= seqNo <= CountOn(sends, route) <==>
            exists i :: 0 <= i < |sends| && sends[i].route == route && StampAt(sends, i).seqNo == seqNo
  {
    if sends != [] {
      var n := |sends| - 1;
      var before := sends[..n];
      assert sends == before + [sends[n]] && sends[..n + 1] == sends;
      StampsCountUp(before, route, seqNo);
      CountOnSnoc(before, sends[n], route);
      forall i | 0 <= i < n ensures StampAt(sends, i) == StampAt(before, i) {
        assert sends[..i + 1] == before[..i + 1];
      }
      hide CountOn;
      if i :| 0 <= i < n && before[i].route == route && StampAt(before, i).seqNo == seqNo {
        assert sends[i].route == route && StampAt(sends, i).seqNo == seqNo;
      }
      assert sends[n].route == route ==> StampAt(sends, n).seqNo == CountOn(before, route) + 1;
    }
  }

  // ---- The consumer's view -----------------------------------------------------------------------

  /** What remains when every repetition is dropped. */
  ghost function FirstOccurrences(outputs: seq<Output>): seq<Output> {
    if outputs == [] then []
    else
      var before, last := FirstOccurrences(outputs[..|outputs| - 1]), outputs[|outputs| - 1];
      if last in before then before else before + [last]
  }

  lemma FirstSnoc(outputs: seq<Output>, s: Output)
    ensures FirstOccurrences(outputs + [s]) ==
            if s in FirstOccurrences(outputs) then FirstOccurrences(outputs) else FirstOccurrences(outputs) + [s]
  {
    assert (outputs + [s])[..|outputs + [s]| - 1] == outputs;
  }

  lemma DistinctPrefix(all: seq<Output>, i: nat)
    requires Distinct(all) && i < |all|
    ensures all[i] !in all[..i]
  {}

  /** One output at or before the frontier: known already, or the next one. */
  lemma EmitOne(outputs: seq<Output>, all: seq<Output>, reached: nat, i: nat)
    requires i <= reached <= |all| && i < |all|
    requires FirstOccurrences(outputs) == all[..reached] && Distinct(all)
    ensures FirstOccurrences(outputs + [all[i]]) == all[..if i < reached then reached else i + 1]
  {
    FirstSnoc(outputs, all[i]);
    hide FirstOccurrences;
    if i < reached {
      assert all[..reached][i] == all[i];
    } else {
      DistinctPrefix(all, i);
      assert all[..i + 1] == all[..i] + [all[i]];
    }
  }

  /** Emitting again from any point already reached adds only what is new. */
  lemma {:induction false} EmitAgain(outputs: seq<Output>, all: seq<Output>, reached: nat, lo: nat, hi: nat)
    requires lo <= reached <= |all| && lo <= hi <= |all|
    requires FirstOccurrences(outputs) == all[..reached] && Distinct(all)
    ensures FirstOccurrences(outputs + all[lo..hi]) == all[..if hi > reached then hi else reached]
    decreases hi
  {
    hide FirstOccurrences, Distinct;
    if lo == hi {
      assert outputs + all[lo..hi] == outputs;
    } else {
      EmitAgain(outputs, all, reached, lo, hi - 1);
      assert outputs + all[lo..hi] == (outputs + all[lo..hi - 1]) + [all[hi - 1]];
      EmitOne(outputs + all[lo..hi - 1], all, if hi - 1 > reached then hi - 1 else reached, hi - 1);
    }
  }

  lemma StampedOnce(sends: seq<Send>)
    ensures Distinct(StampAll(sends))
  {
    forall i, j | 0 <= i < j < |sends| ensures StampAll(sends)[i] != StampAll(sends)[j] {
      if sends[i].route == sends[j].route {
        StampsAreDistinct(sends, i, j);
      }
    }
  }

  // ---- Input in its original order -----------------------------------------------------------------

  datatype Item = DataItem(msg: Message) | AbortItem(client: ClientId)

  /** What a checkpoint covers: the messages applied, the dedup table, the tombstones. Counters and
      business state are functions of the messages applied. */
  datatype Image = Image(log: seq<Message>, seen: set<Id>, aborted: set<ClientId>)

  predicate Absorbed(im: Image, item: Item) {
    match item
    case DataItem(m) => m.client in im.aborted || m.id in im.seen
    case AbortItem(c) => c in im.aborted
  }

  function Absorb(im: Image, item: Item): Image {
    if Absorbed(im, item) then im else
      match item
      case DataItem(m) => Image(im.log + [m], im.seen + {m.id}, im.aborted)
      case AbortItem(c) => im.(aborted := im.aborted + {c})
  }

  function AbsorbAll(im: Image, items: seq<Item>): Image
    decreases |items|
  {
    if items == [] then im else AbsorbAll(Absorb(im, items[0]), items[1..])
  }

  lemma {:induction false} AbsorbConcat(im: Image, a: seq<Item>, b: seq<Item>)
    ensures AbsorbAll(im, a + b) == AbsorbAll(AbsorbAll(im, a), b)
    decreases |a|
  {
    if a == [] {
      assert a + b == b;
    } else {
      assert (a + b)[1..] == a[1..] + b;
      AbsorbConcat(Absorb(im, a[0]), a[1..], b);
    }
  }

  ghost predicate Grows(a: Image, b: Image) {
    a.log <= b.log && a.seen <= b.seen && a.aborted <= b.aborted
  }

  lemma {:induction false} AbsorbGrows(im: Image, items: seq<Item>)
    ensures Grows(im, AbsorbAll(im, items))
    decreases |items|
  {
    if items != [] {
      AbsorbGrows(Absorb(im, items[0]), items[1..]);
    }
  }

  /** Whatever has been taken stays absorbed. */
  lemma {:induction false} TakenIsAbsorbed(im: Image, items: seq<Item>, item: Item)
    requires item in items
    ensures Absorbed(AbsorbAll(im, items), item)
    decreases |items|
  {
    if items[0] == item {
      AbsorbGrows(Absorb(im, item), items[1..]);
    } else {
      TakenIsAbsorbed(Absorb(im, items[0]), items[1..], item);
    }
  }

  /** Taking absorbed items again changes nothing. */
  lemma {:induction false} AbsorbAgain(im: Image, items: seq<Item>)
    requires forall item :: item in items ==> Absorbed(im, item)
    ensures AbsorbAll(im, items) == im
    decreases |items|
  {
    if items != [] {
      AbsorbAgain(im, items[1..]);
    }
  }

  /** A checkpoint in the middle of the queue does not change where the queue leads. */
  lemma SameEnd(im: Image, queue: seq<Item>, taken: nat)
    requires taken <= |queue|
    ensures AbsorbAll(AbsorbAll(im, queue[..taken]), queue) == AbsorbAll(im, queue)
  {
    var live := AbsorbAll(im, queue[..taken]);
    assert queue == queue[..taken] + queue[taken..];
    AbsorbConcat(im, queue[..taken], queue[taken..]);
    AbsorbConcat(live, queue[..taken], queue[taken..]);
    forall item | item in queue[..taken] ensures Absorbed(live, item) {
      TakenIsAbsorbed(im, queue[..taken], item);
    }
    AbsorbAgain(live, queue[..taken]);
  }

  /** An item already absorbed when it is reached can be dropped from the queue. */
  lemma DropAbsorbed(im: Image, a: seq<Item>, item: Item, b: seq<Item>)
    requires Absorbed(AbsorbAll(im, a), item)
    ensures AbsorbAll(im, a + [item] + b) == AbsorbAll(im, a + b)
  {
    AbsorbConcat(im, a + [item], b);
    AbsorbConcat(im, a, [item]);
    AbsorbConcat(im, a, b);
    AbsorbAgain(AbsorbAll(im, a), [item]);
  }

  // ---- The machine -------------------------------------------------------------------------------------

  /** What a node sends when it applies a message after a log of earlier ones. */
  type Behaviour = (seq<Message>, Message) -> seq<Send>

  function Sends(emits: Behaviour, log: seq<Message>): seq<Send> {
    if log == [] then [] else Sends(emits, log[..|log| - 1]) + emits(log[..|log| - 1], log[|log| - 1])
  }

  lemma {:induction false} SendsPrefix(emits: Behaviour, a: seq<Message>, b: seq<Message>)
    requires a <= b
    ensures Sends(emits, a) <= Sends(emits, b)
    decreases |b|
  {
    if |a| < |b| {
      assert a <= b[..|b| - 1];
      SendsPrefix(emits, a, b[..|b| - 1]);
    } else {
      assert a == b;
    }
  }

  /** A node and its input queue. `queue` holds the deliveries not acknowledged, in their original
      order, the first `taken` of them since the last start; `outputs` is everything published by
      every incarnation and `history` everything ever put on the queue. */
  datatype Node = Node(
    live: Image, durable: Image, queue: seq<Item>, taken: nat, outputs: seq<Output>, history: seq<Item>)

  const EMPTY := Image([], {}, {})

  datatype Move = Publish(item: Item) | Take | CrashWhileTaking(sent: nat) | Save | AckFirst | Crash

  /** The outputs of the next message, stamped from the counters of the live state. */
  ghost function OutputsOf(emits: Behaviour, log: seq<Message>, m: Message): seq<Output> {
    var before, after := Sends(emits, log), Sends(emits, log + [m]);
    if |before| <= |after| then StampAll(after)[|before|..] else []
  }

  ghost predicate Enabled(s: Node, emits: Behaviour, move: Move) {
    match move
    case Publish(item) => true
    case Take => s.taken < |s.queue|
    case CrashWhileTaking(sent) =>
      && s.taken < |s.queue| && s.queue[s.taken].DataItem? && !Absorbed(s.live, s.queue[s.taken])
      && sent <= |OutputsOf(emits, s.live.log, s.queue[s.taken].msg)|
    case Save => true
    case AckFirst => 0 < s.taken <= |s.queue| && s.durable == s.live
    case Crash => true
  }

  ghost function Next(s: Node, emits: Behaviour, move: Move): Node
    requires Enabled(s, emits, move)
  {
    match move
    case Publish(item) => s.(queue := s.queue + [item], history := s.history + [item])
    case Take =>
      var item := s.queue[s.taken];
      if Absorbed(s.live, item) then s.(queue := s.queue[..s.taken] + s.queue[s.taken + 1..])
      else s.(live := Absorb(s.live, item), taken := s.taken + 1,
              outputs := s.outputs + (if item.DataItem? then OutputsOf(emits, s.live.log, item.msg) else []))
    case CrashWhileTaking(sent) =>
      s.(live := s.durable, taken := 0,
         outputs := s.outputs + OutputsOf(emits, s.live.log, s.queue[s.taken].msg)[..sent])
    case Save => s.(durable := s.live)
    case AckFirst => s.(queue := s.queue[1..], taken := s.taken - 1)
    case Crash => s.(live := s.durable, taken := 0)
  }

  ghost predicate IsRun(emits: Behaviour, states: seq<Node>, moves: seq<Move>) {
    && |states| == |moves| + 1
    && states[0] == Node(EMPTY, EMPTY, [], 0, [], [])
    && forall k ::
        0 <= k < |moves| ==> Enabled(states[k], emits, moves[k]) && states[k + 1] == Next(states[k], emits, moves[k])
  }

  /** The state a node without crashes reaches on everything ever put on the queue. */
  ghost function CrashFree(history: seq<Item>): Image {
    AbsorbAll(EMPTY, history)
  }

  /** The queue leads where a crash-free node would be, from the checkpoint as from the live state. */
  ghost predicate OnCourse(s: Node) {
    && s.taken <= |s.queue|
    && s.live == AbsorbAll(s.durable, s.queue[..s.taken])
    && AbsorbAll(s.durable, s.queue) == CrashFree(s.history)
  }

  /** Repetitions aside, the outputs so far are the beginning of the crash-free outputs, and cover at
      least what the live state accounts for. */
  ghost predicate InStep(emits: Behaviour, s: Node) {
    var n, all := |FirstOccurrences(s.outputs)|, Sends(emits, CrashFree(s.history).log);
    && |Sends(emits, s.live.log)| <= n <= |all|
    && FirstOccurrences(s.outputs) == StampAll(all)[..n]
  }

  lemma LiveIsAhead(s: Node)
    requires OnCourse(s)
    ensures s.durable.log <= s.live.log <= CrashFree(s.history).log
    ensures AbsorbAll(s.live, s.queue[s.taken..]) == CrashFree(s.history)
  {
    AbsorbGrows(s.durable, s.queue[..s.taken]);
    assert s.queue == s.queue[..s.taken] + s.queue[s.taken..];
    AbsorbConcat(s.durable, s.queue[..s.taken], s.queue[s.taken..]);
    AbsorbGrows(s.live, s.queue[s.taken..]);
  }

  lemma NextIsOnCourse(emits: Behaviour, s: Node, move: Move)
    requires OnCourse(s) && Enabled(s, emits, move)
    ensures OnCourse(Next(s, emits, move))
  {
    hide Absorb, Absorbed, AbsorbAll, Sends;
    match move
    case Publish(item) =>
      AbsorbConcat(s.durable, s.queue, [item]);
      AbsorbConcat(EMPTY, s.history, [item]);
      assert (s.queue + [item])[..s.taken] == s.queue[..s.taken];
    case Take => TakeIsOnCourse(emits, s);
    case CrashWhileTaking(_) => NothingTaken(s);
    case Save => SaveIsOnCourse(s);
    case AckFirst => AckIsOnCourse(s);
    case Crash => NothingTaken(s);
  }

  lemma NothingTaken(s: Node)
    ensures AbsorbAll(s.durable, s.queue[..0]) == s.durable
  {}

  lemma TakeIsOnCourse(emits: Behaviour, s: Node)
    requires OnCourse(s) && s.taken < |s.queue|
    ensures OnCourse(Next(s, emits, Take))
  {
    var item, done, rest := s.queue[s.taken], s.queue[..s.taken], s.queue[s.taken + 1..];
    assert s.queue == done + [item] + rest;
    if Absorbed(s.live, item) {
      DropAbsorbed(s.durable, done, item, rest);
      assert (done + rest)[..s.taken] == done;
    } else {
      AbsorbConcat(s.durable, done, [item]);
      assert s.queue[..s.taken + 1] == done + [item];
      assert AbsorbAll(s.live, [item]) == AbsorbAll(Absorb(s.live, item), []);
    }
  }

  lemma SaveIsOnCourse(s: Node)
    requires OnCourse(s)
    ensures OnCourse(s.(durable := s.live))
  {
    SameEnd(s.durable, s.queue, s.taken);
    forall item | item in s.queue[..s.taken] ensures Absorbed(s.live, item) {
      TakenIsAbsorbed(s.durable, s.queue[..s.taken], item);
    }
    AbsorbAgain(s.live, s.queue[..s.taken]);
  }

  lemma AckIsOnCourse(s: Node)
    requires OnCourse(s) && 0 < s.taken && s.durable == s.live
    ensures OnCourse(s.(queue := s.queue[1..], taken := s.taken - 1))
  {
    var head, rest := s.queue[0], s.queue[1..];
    TakenIsAbsorbed(s.durable, s.queue[..s.taken], head);
    assert s.queue[..s.taken] == [head] + rest[..s.taken - 1];
    assert Absorb(s.durable, head) == s.durable;
    assert s.queue[..s.taken][1..] == rest[..s.taken - 1];
  }

  lemma GoalGrows(s: Node, item: Item)
    ensures CrashFree(s.history).log <= CrashFree(s.history + [item]).log
  {
    AbsorbConcat(EMPTY, s.history, [item]);
    AbsorbGrows(CrashFree(s.history), [item]);
  }

  lemma EmitsAhead(outputs: seq<Output>, all: seq<Output>, some: seq<Output>, reached: nat, lo: nat, count: nat)
    requires some <= all && lo <= reached <= |all| && lo + count <= |some|
    requires FirstOccurrences(outputs) == all[..reached] && Distinct(all)
    ensures FirstOccurrences(outputs + some[lo..][..count])
            == all[..if lo + count > reached then lo + count else reached]
  {
    hide FirstOccurrences, Distinct;
    assert some[lo..][..count] == all[lo..lo + count];
    EmitAgain(outputs, all, reached, lo, lo + count);
  }

  /** Sending some of the outputs of the next message keeps the node in step. */
  lemma EmitsInStep(emits: Behaviour, s: Node, m: Message, sent: nat)
    requires InStep(emits, s)
    requires s.live.log + [m] <= CrashFree(s.history).log && sent <= |OutputsOf(emits, s.live.log, m)|
    ensures var outputs := s.outputs + OutputsOf(emits, s.live.log, m)[..sent];
            var all := Sends(emits, CrashFree(s.history).log);
            && |Sends(emits, s.live.log)| + sent <= |FirstOccurrences(outputs)| <= |all|
            && |FirstOccurrences(s.outputs)| <= |FirstOccurrences(outputs)|
            && FirstOccurrences(outputs) == StampAll(all)[..|FirstOccurrences(outputs)|]
  {
    var before, after, all := Sends(emits, s.live.log), Sends(emits, s.live.log + [m]),
      Sends(emits, CrashFree(s.history).log);
    SendsPrefix(emits, s.live.log, s.live.log + [m]);
    SendsPrefix(emits, s.live.log + [m], CrashFree(s.history).log);
    hide Sends, CrashFree;
    StampPrefix(after, all);
    StampedOnce(all);
    hide StampAll, FirstOccurrences, Distinct;
    EmitsAhead(s.outputs, StampAll(all), StampAll(after), |FirstOccurrences(s.outputs)|, |before|, sent);
  }

  lemma NextIsInStep(emits: Behaviour, s: Node, move: Move)
    requires OnCourse(s) && InStep(emits, s) && Enabled(s, emits, move)
    ensures InStep(emits, Next(s, emits, move))
  {
    LiveIsAhead(s);
    SendsPrefix(emits, s.durable.log, s.live.log);
    match move
    case Publish(item) =>
      GoalGrows(s, item);
      SendsPrefix(emits, CrashFree(s.history).log, CrashFree(s.history + [item]).log);
      StampPrefix(Sends(emits, CrashFree(s.history).log), Sends(emits, CrashFree(s.history + [item]).log));
      hide Sends, StampAll, AbsorbAll, FirstOccurrences;
    case Take =>
      if !Absorbed(s.live, s.queue[s.taken]) {
        TakeInStep(emits, s);
      }
    case CrashWhileTaking(sent) =>
      NextMessageIsDue(s);
      EmitsInStep(emits, s, s.queue[s.taken].msg, sent);
      hide Sends, StampAll, AbsorbAll, FirstOccurrences, OutputsOf;
    case Save =>
    case AckFirst =>
    case Crash =>
  }

  lemma NextMessageIsDue(s: Node)
    requires OnCourse(s) && s.taken < |s.queue| && !Absorbed(s.live, s.queue[s.taken])
    ensures Absorb(s.live, s.queue[s.taken]).log <= CrashFree(s.history).log
  {
    LiveIsAhead(s);
    assert s.queue[s.taken..] == [s.queue[s.taken]] + s.queue[s.taken + 1..];
    AbsorbGrows(Absorb(s.live, s.queue[s.taken]), s.queue[s.taken + 1..]);
  }

  lemma TakeInStep(emits: Behaviour, s: Node)
    requires OnCourse(s) && InStep(emits, s) && s.taken < |s.queue| && !Absorbed(s.live, s.queue[s.taken])
    ensures InStep(emits, Next(s, emits, Take))
  {
    var item := s.queue[s.taken];
    match item
    case AbortItem(_) =>
      assert s.outputs + [] == s.outputs;
    case DataItem(m) =>
      NextMessageIsDue(s);
      var outputs := OutputsOf(emits, s.live.log, m);
      EmitsInStep(emits, s, m, |outputs|);
      SendsPrefix(emits, s.live.log, s.live.log + [m]);
      assert outputs[..|outputs|] == outputs;
      assert |Sends(emits, s.live.log)| + |outputs| == |Sends(emits, s.live.log + [m])|;
      hide Sends, StampAll, AbsorbAll, FirstOccurrences, OutputsOf;
  }

  lemma {:induction false} RunIsInStep(emits: Behaviour, states: seq<Node>, moves: seq<Move>, k: nat)
    requires IsRun(emits, states, moves) && k < |states|
    ensures OnCourse(states[k]) && InStep(emits, states[k])
  {
    if k > 0 {
      RunIsInStep(emits, states, moves, k - 1);
      assert states[k - 1 + 1] == Next(states[k - 1], emits, moves[k - 1]);
      hide OnCourse, InStep;
      NextIsOnCourse(emits, states[k - 1], moves[k - 1]);
      NextIsInStep(emits, states[k - 1], moves[k - 1]);
    }
  }

  // ---- The results, over whole runs ------------------------------------------------------------------------

  /** A consumer that drops repetitions sees the beginning of the crash-free sequence of outputs, at
      every moment, and the whole of it once everything on the queue has been taken. */
  lemma ConsumerSeesCrashFreeRun(emits: Behaviour, states: seq<Node>, moves: seq<Move>, k: nat)
    requires IsRun(emits, states, moves) && k < |states|
    ensures FirstOccurrences(states[k].outputs) <= StampAll(Sends(emits, CrashFree(states[k].history).log))
    ensures states[k].taken == |states[k].queue| ==>
              FirstOccurrences(states[k].outputs) == StampAll(Sends(emits, CrashFree(states[k].history).log))
  {
    RunIsInStep(emits, states, moves, k);
    LiveIsAhead(states[k]);
    if states[k].taken == |states[k].queue| {
      assert states[k].queue[states[k].taken..] == [];
      assert states[k].live == CrashFree(states[k].history);
    }
  }

  lemma {:induction false} FirstHasAll(outputs: seq<Output>, x: Output)
    ensures x in outputs <==> x in FirstOccurrences(outputs)
  {
    if outputs != [] {
      FirstHasAll(outputs[..|outputs| - 1], x);
      assert outputs == outputs[..|outputs| - 1] + [outputs[|outputs| - 1]];
    }
  }

  /** Over a whole run with any crashes, a stamp is never paired with two payloads. */
  lemma OneStampOnePayload(emits: Behaviour, states: seq<Node>, moves: seq<Move>, k: nat, a: Output, b: Output)
    requires IsRun(emits, states, moves) && k < |states|
    requires a in states[k].outputs && b in states[k].outputs
    requires a.route == b.route && a.seqNo == b.seqNo
    ensures a.payload == b.payload
  {
    ConsumerSeesCrashFreeRun(emits, states, moves, k);
    FirstHasAll(states[k].outputs, a);
    FirstHasAll(states[k].outputs, b);
    var all := Sends(emits, CrashFree(states[k].history).log);
    assert a in StampAll(all) && b in StampAll(all);
    hide Sends;
    var i :| 0 <= i < |all| && StampAll(all)[i] == a;
    var j :| 0 <= j < |all| && StampAll(all)[j] == b;
    if i < j {
      StampsAreDistinct(all, i, j);
    } else if j < i {
      StampsAreDistinct(all, j, i);
    }
  }
}

/** The ring's neighbour computation: over any set of ids, following front is one cycle through all
    of them and back is its inverse. */
module RingOrder {
  import opened Common

  datatype Neighbours = InvalidPeers | Neighbours(front: int, back: int)

  /** The next position around a ring of n. */
  function After(n: nat, k: nat): nat
    requires k < n
  {
    if k + 1 == n then 0 else k + 1
  }

  function PositionBefore(n: nat, k: nat): nat
    requires k < n
  {
    if k == 0 then n - 1 else k - 1
  }

  /** Where one is after i steps around the ring. */
  function Steps(n: nat, k: nat, i: nat): (p: nat)
    requires k < n
    ensures p < n
  {
    if i == 0 then k else After(n, Steps(n, k, i - 1))
  }

  lemma {:induction false} StepsAre(n: nat, k: nat, i: nat)
    requires k < n && i < 2 * n
    ensures Steps(n, k, i) == if k + i < n then k + i else if k + i < 2 * n then k + i - n else k + i - 2 * n
  {
    if i > 0 {
      StepsAre(n, k, i - 1);
    }
  }

  lemma StepsReach(n: nat, k: nat, at: nat) returns (i: nat)
    requires k < n && at < n
    ensures i < n && Steps(n, k, i) == at && Steps(n, k, i + n) == at
  {
    hide Steps;
    i := if at >= k then at - k else at + n - k;
    StepsAre(n, k, i);
    StepsAre(n, k, i + n);
  }

  /** The ring in the order of the ids. */
  function Order(nodes: set<int>): seq<int> {
    Sorted(nodes)
  }

  /** Strictly increasing listings of the same elements are the same listing. */
  lemma {:induction false} IncreasingUnique(a: seq<int>, b: seq<int>)
    requires Increasing(a) && Increasing(b) && |a| == |b|
    requires forall x :: x in a <==> x in b
    ensures a == b
    decreases |a|
  {
    if a != [] {
      assert a[0] in a && b[0] in b;
      assert a[0] == b[0];
      forall x ensures x in a[1..] <==> x in b[1..] {
        TailMember(a, x);
        TailMember(b, x);
      }
      IncreasingUnique(a[1..], b[1..]);
      assert a == [a[0]] + a[1..] && b == [b[0]] + b[1..];
    }
  }

  lemma TailMember(a: seq<int>, x: int)
    requires Increasing(a) && a != []
    ensures x in a[1..] <==> x in a && x != a[0]
  {
    assert a == [a[0]] + a[1..];
  }

  lemma WithoutMember(a: seq<int>, k: nat, x: int)
    requires Increasing(a) && k < |a|
    ensures x in Without(a, k) <==> x in a && x != a[k]
  {
    assert a == a[..k] + [a[k]] + a[k + 1..];
  }

  lemma WithoutIncreases(a: seq<int>, k: nat)
    requires Increasing(a) && k < |a|
    ensures Increasing(Without(a, k))
  {}

  /** The sorted peers are the ring without the node itself. */
  lemma PeersOrder(self: int, peers: set<int>, k: nat)
    requires self !in peers && k < |Order(peers + {self})| && Order(peers + {self})[k] == self
    ensures Order(peers) == Without(Order(peers + {self}), k)
  {
    var all := Order(peers + {self});
    WithoutIncreases(all, k);
    forall x ensures x in Without(all, k) <==> x in Order(peers) {
      WithoutMember(all, k, x);
    }
    assert |peers + {self}| == |peers| + 1;
    hide Increasing, Without;
    IncreasingUnique(Without(all, k), Order(peers));
  }

  /** The position of an id among the sorted ids. */
  ghost function PositionOf(nodes: set<int>, x: int): (k: nat)
    requires x in nodes
    ensures k < |nodes| && Order(nodes)[k] == x
  {
    assert x in Order(nodes);
    var k: nat :| k < |nodes| && Order(nodes)[k] == x;
    k
  }

  /** The neighbours of an id in the ring of a set of ids. */
  ghost function FrontOf(nodes: set<int>, x: int): (y: int)
    requires x in nodes
    ensures y in nodes
  {
    var y := Order(nodes)[After(|nodes|, PositionOf(nodes, x))];
    assert y in Order(nodes);
    y
  }

  ghost function BackOf(nodes: set<int>, x: int): (y: int)
    requires x in nodes
    ensures y in nodes
  {
    var y := Order(nodes)[PositionBefore(|nodes|, PositionOf(nodes, x))];
    assert y in Order(nodes);
    y
  }

  /** The search for the first larger peer, as the source writes it. */
  method FrontBackIds(self: int, peerIds: set<int>) returns (r: Neighbours)
    ensures r.InvalidPeers? <==> self in peerIds
    ensures r.Neighbours? ==> r.front == FrontOf(peerIds + {self}, self) && r.back == BackOf(peerIds + {self}, self)
  {
    if self in peerIds {
      return InvalidPeers;
    }
    var peers := Sorted(peerIds);
    ghost var all := Order(peerIds + {self});
    ghost var k := PositionOf(peerIds + {self}, self);
    PeersOrder(self, peerIds, k);
    Larger(all, k);
    hide Sorted, Increasing;
    r := FindNeighbours(self, peers, all, k);
  }

  /** Among the others, those from position k on are the larger ones. */
  lemma Larger(all: seq<int>, k: nat)
    requires Increasing(all) && k < |all|
    ensures |Without(all, k)| == |all| - 1
    ensures forall j :: 0 <= j < |all| - 1 ==> (all[k] < Without(all, k)[j] <==> k <= j)
  {}

  method FindNeighbours(self: int, peers: seq<int>, ghost all: seq<int>, ghost k: nat) returns (r: Neighbours)
    requires k < |all| && all[k] == self && peers == Without(all, k)
    requires forall j :: 0 <= j < |peers| ==> (self < peers[j] <==> k <= j)
    ensures r.Neighbours? && r.front == all[After(|all|, k)] && r.back == all[PositionBefore(|all|, k)]
  {
    if |peers| == 0 {
      return Neighbours(self, self);
    } else if |peers| == 1 {
      return Neighbours(peers[0], peers[0]);
    }
    var frontIdx := Search(self, peers, k);
    var backIdx := (|peers| + frontIdx - 1) % |peers|;
    BackIndex(|peers|, frontIdx);
    ByIndex(all, k, frontIdx);
    r := Neighbours(peers[frontIdx], peers[backIdx]);
  }

  lemma BackIndex(n: nat, f: nat)
    requires f < n
    ensures (n + f - 1) % n == PositionBefore(n, f)
  {
    if f > 0 {
      assert (n + (f - 1)) % n == f - 1;
    }
  }

  /** Where the search finds the neighbours among the others is where they are in the ring. */
  lemma ByIndex(all: seq<int>, k: nat, f: nat)
    requires k < |all| && |all| > 2 && f == if k < |all| - 1 then k else 0
    ensures |Without(all, k)| == |all| - 1
    ensures Without(all, k)[f] == all[After(|all|, k)]
    ensures Without(all, k)[PositionBefore(|all| - 1, f)] == all[PositionBefore(|all|, k)]
  {}

  method Search(self: int, peers: seq<int>, ghost k: nat) returns (frontIdx: nat)
    requires |peers| > 1 && k <= |peers|
    requires forall j :: 0 <= j < |peers| ==> (self < peers[j] <==> k <= j)
    ensures frontIdx == if k < |peers| then k else 0
  {
    frontIdx := 0;
    var idx := 0;
    while idx < |peers|
      invariant 0 <= idx <= |peers| && idx <= k && frontIdx == 0
    {
      if self < peers[idx] {
        frontIdx := idx;
        break;
      }
      idx := idx + 1;
    }
  }

  // ---- One cycle -----------------------------------------------------------------------------------

  /** The id reached from x by following front i times. */
  ghost function Follow(nodes: set<int>, x: int, i: nat): (y: int)
    requires x in nodes
    ensures y in nodes
  {
    if i == 0 then x else FrontOf(nodes, Follow(nodes, x, i - 1))
  }

  lemma FollowStep(nodes: set<int>, x: int, i: nat)
    requires x in nodes
    ensures Follow(nodes, x, i) == if i == 0 then x else FrontOf(nodes, Follow(nodes, x, i - 1))
  {
    hide FrontOf;
  }

  lemma {:induction false} FollowShift(nodes: set<int>, x: int, i: nat)
    requires x in nodes
    ensures Follow(nodes, FrontOf(nodes, x), i) == Follow(nodes, x, i + 1)
  {
    hide *;
    FollowStep(nodes, FrontOf(nodes, x), i);
    FollowStep(nodes, x, i + 1);
    if i > 0 {
      FollowShift(nodes, x, i - 1);
    } else {
      FollowStep(nodes, x, 0);
    }
  }

  /** An increasing listing has each id at one position. */
  lemma OnePosition(nodes: set<int>, x: int, k: nat)
    requires x in nodes && k < |nodes| && Order(nodes)[k] == x
    ensures PositionOf(nodes, x) == k
  {
    assert Increasing(Order(nodes));
  }

  lemma FrontPosition(nodes: set<int>, x: int)
    requires x in nodes
    ensures PositionOf(nodes, FrontOf(nodes, x)) == After(|nodes|, PositionOf(nodes, x))
  {
    hide PositionOf;
    OnePosition(nodes, FrontOf(nodes, x), After(|nodes|, PositionOf(nodes, x)));
  }

  lemma BackPosition(nodes: set<int>, x: int)
    requires x in nodes
    ensures PositionOf(nodes, BackOf(nodes, x)) == PositionBefore(|nodes|, PositionOf(nodes, x))
  {
    hide PositionOf;
    OnePosition(nodes, BackOf(nodes, x), PositionBefore(|nodes|, PositionOf(nodes, x)));
  }

  lemma {:induction false} FollowIsSteps(nodes: set<int>, x: int, i: nat)
    requires x in nodes
    ensures PositionOf(nodes, Follow(nodes, x, i)) == Steps(|nodes|, PositionOf(nodes, x), i)
  {
    hide FrontOf, PositionOf, After;
    if i > 0 {
      FollowIsSteps(nodes, x, i - 1);
      FrontPosition(nodes, Follow(nodes, x, i - 1));
    }
  }

  /** Following front from any id visits every id exactly once before it comes back. */
  lemma FrontIsOneCycle(nodes: set<int>, x: int, target: int)
    requires x in nodes && target in nodes
    ensures exists i: nat :: i < |nodes| && Follow(nodes, x, i) == target
    ensures forall i: nat, j: nat :: i < j < |nodes| ==> Follow(nodes, x, i) != Follow(nodes, x, j)
    ensures Follow(nodes, x, |nodes|) == x
  {
    var i := Distance(nodes, x, target);
    assert Follow(nodes, x, i) == target;
    hide Follow, Steps, PositionOf, Order;
    FollowIsSteps(nodes, x, |nodes|);
    StepsAre(|nodes|, PositionOf(nodes, x), |nodes|);
    SamePosition(nodes, Follow(nodes, x, |nodes|), x);
    forall a: nat, b: nat | a < b < |nodes| ensures Follow(nodes, x, a) != Follow(nodes, x, b) {
      FollowIsSteps(nodes, x, a);
      FollowIsSteps(nodes, x, b);
      StepsAre(|nodes|, PositionOf(nodes, x), a);
      StepsAre(|nodes|, PositionOf(nodes, x), b);
    }
  }

  /** From any id one meets every id within one round, and again a round later. */
  lemma Distance(nodes: set<int>, x: int, target: int) returns (i: nat)
    requires x in nodes && target in nodes
    ensures i < |nodes| && Follow(nodes, x, i) == target && Follow(nodes, x, i + |nodes|) == target
  {
    hide Steps, Follow, Order, PositionOf;
    i := StepsReach(|nodes|, PositionOf(nodes, x), PositionOf(nodes, target));
    FollowIsSteps(nodes, x, i);
    FollowIsSteps(nodes, x, i + |nodes|);
    SamePosition(nodes, Follow(nodes, x, i), target);
    SamePosition(nodes, Follow(nodes, x, i + |nodes|), target);
  }

  /** Back undoes front, and front undoes back. */
  lemma BackIsInverse(nodes: set<int>, x: int)
    requires x in nodes
    ensures BackOf(nodes, FrontOf(nodes, x)) == x == FrontOf(nodes, BackOf(nodes, x))
  {
    FrontPosition(nodes, x);
    BackPosition(nodes, x);
    FrontPosition(nodes, BackOf(nodes, x));
    BackPosition(nodes, FrontOf(nodes, x));
    hide FrontOf, BackOf, Order;
    SamePosition(nodes, BackOf(nodes, FrontOf(nodes, x)), x);
    SamePosition(nodes, FrontOf(nodes, BackOf(nodes, x)), x);
  }

  lemma SamePosition(nodes: set<int>, x: int, y: int)
    requires x in nodes && y in nodes && PositionOf(nodes, x) == PositionOf(nodes, y)
    ensures x == y
  {
    assert Order(nodes)[PositionOf(nodes, x)] == x;
  }

  /** Front is the next larger id, or the smallest of all past the largest. */
  lemma FrontIsNextLarger(nodes: set<int>, x: int)
    requires x in nodes
    ensures var y := FrontOf(nodes, x);
            if exists z :: z in nodes && z > x
            then y > x && forall z :: z in nodes && z > x ==> y <= z
            else IsMinimum(nodes, y)
  {
    hide PositionOf, Order;
    var all, k := Order(nodes), PositionOf(nodes, x);
    ListsNodes(nodes, 0, k);
    assert k + 1 < |all| ==> all[k + 1] > x && all[k + 1] in nodes by { ListsNodes(nodes, k + 1, k); }
    forall z | z in nodes ensures (z > x ==> k + 1 < |all| && all[k + 1] <= z) && all[0] <= z {
      ListsNodes(nodes, PositionOf(nodes, z), k);
    }
  }

  lemma ListsNodes(nodes: set<int>, i: nat, j: nat)
    requires j < |nodes|
    ensures |Order(nodes)| == |nodes| && (i < |nodes| ==> Order(nodes)[i] in nodes)
    ensures forall k :: 0 <= k < i < |nodes| ==> Order(nodes)[k] < Order(nodes)[i]
    ensures forall k :: 0 <= i < k < |nodes| ==> Order(nodes)[i] < Order(nodes)[k]
  {
    assert i < |nodes| ==> Order(nodes)[i] in Order(nodes);
  }
}

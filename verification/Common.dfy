/** Small vocabulary shared by every module: optional values, ordered listings of
    finite sets, and sums over sequences with the two laws the pipeline needs
    (concatenation and permutation). */
module Common {

  type ClientId = int

  /** How many messages went to each downstream queue, by its index. */
  type Counts = map<int, nat>

  /** A positive number of shards. */
  type Shards = n: int | n > 0 witness 1

  /** A message together with the affinity its producer routes it by. */
  datatype Routed<+M> = Routed(message: M, affinity: int)

  function Messages<M>(outs: seq<Routed<M>>): (ms: seq<M>)
    ensures |ms| == |outs|
    ensures forall i :: 0 <= i < |outs| ==> ms[i] == outs[i].message
  {
    seq(|outs|, i requires 0 <= i < |outs| => outs[i].message)
  }

  /** Every client's dictionary has fewer entries than the limit. */
  ghost predicate AllBelow<K(!new), V(!new)>(dicts: map<ClientId, map<K, V>>, limit: nat) {
    forall cl :: cl in dicts ==> |dicts[cl]| < limit
  }

  datatype Option<+T> = None | Some(value: T)

  function Min(x: int, y: int): int {
    if x <= y then x else y
  }

  /** Total weight of a sequence of messages. */
  ghost function SumOf<T(!new)>(f: T -> nat, s: seq<T>): nat {
    if s == [] then 0 else f(s[0]) + SumOf(f, s[1..])
  }

  lemma {:induction false} SumOfConcat<T(!new)>(f: T -> nat, s: seq<T>, t: seq<T>)
    ensures SumOf(f, s + t) == SumOf(f, s) + SumOf(f, t)
  {
    if s == [] {
      assert s + t == t;
    } else {
      assert (s + t)[1..] == s[1..] + t;
      SumOfConcat(f, s[1..], t);
    }
  }

  function Without<T>(s: seq<T>, i: nat): (rest: seq<T>)
    requires i < |s|
    ensures |rest| == |s| - 1
  {
    s[..i] + s[i + 1..]
  }

  lemma WithoutIsRest<T>(s: seq<T>, i: nat)
    requires i < |s|
    ensures multiset(Without(s, i)) == multiset(s) - multiset{s[i]}
  {
    assert s == s[..i] + ([s[i]] + s[i + 1..]);
  }

  lemma SumOfWithout<T(!new)>(f: T -> nat, s: seq<T>, i: nat)
    requires i < |s|
    ensures SumOf(f, s) == f(s[i]) + SumOf(f, Without(s, i))
  {
    hide *;
    var before, after := s[..i], s[i + 1..];
    assert s == before + ([s[i]] + after);
    SumOfConcat(f, before, [s[i]] + after);
    SumOfCons(f, s[i], after);
    SumOfConcat(f, before, after);
    WithoutIs(s, i);
  }

  lemma WithoutIs<T>(s: seq<T>, i: nat)
    requires i < |s|
    ensures Without(s, i) == s[..i] + s[i + 1..]
  {}

  lemma SumOfOne<T(!new)>(f: T -> nat, x: T)
    ensures SumOf(f, [x]) == f(x)
  {
    assert [x][1..] == [];
    assert SumOf(f, [x][1..]) == 0;
  }

  lemma SumOfCons<T(!new)>(f: T -> nat, x: T, s: seq<T>)
    ensures SumOf(f, [x] + s) == f(x) + SumOf(f, s)
  {
    assert ([x] + s)[1..] == s;
  }

  /** The order in which messages arrive does not change their total weight. */
  lemma {:induction false} SumOfPermutation<T(!new)>(f: T -> nat, s: seq<T>, t: seq<T>)
    requires multiset(s) == multiset(t)
    ensures SumOf(f, s) == SumOf(f, t)
    decreases |s|
  {
    hide Without;
    if s == [] {
      assert |t| == |multiset(t)| == 0;
    } else {
      assert s[0] in multiset(t);
      var i :| 0 <= i < |t| && t[i] == s[0];
      WithoutIsRest(t, i);
      TailIsRest(s);
      SumOfPermutation(f, s[1..], Without(t, i));
      SumOfWithout(f, t, i);
    }
  }

  lemma TailIsRest<T>(s: seq<T>)
    requires s != []
    ensures multiset(s[1..]) == multiset(s) - multiset{s[0]}
  {
    assert s == [s[0]] + s[1..];
  }

  lemma {:induction false} SumOfMember<T(!new)>(f: T -> nat, s: seq<T>, x: T)
    requires x in s
    ensures f(x) <= SumOf(f, s)
  {
    if s[0] != x {
      SumOfMember(f, s[1..], x);
    }
  }

  lemma {:induction false} SumOfZero<T(!new)>(f: T -> nat, s: seq<T>)
    requires forall x :: x in s ==> f(x) == 0
    ensures SumOf(f, s) == 0
  {
    if s != [] {
      SumOfZero(f, s[1..]);
    }
  }

  /** The elements that pass, in order. */
  function Where<T>(pass: T -> bool, s: seq<T>): seq<T> {
    if s == [] then [] else Where(pass, s[..|s| - 1]) + (if pass(s[|s| - 1]) then [s[|s| - 1]] else [])
  }

  lemma WhereSnoc<T>(pass: T -> bool, s: seq<T>, x: T)
    ensures Where(pass, s + [x]) == Where(pass, s) + (if pass(x) then [x] else [])
  {
    assert (s + [x])[..|s|] == s;
  }

  lemma {:induction false} WhereMember<T>(pass: T -> bool, s: seq<T>, x: T)
    ensures x in Where(pass, s) <==> x in s && pass(x)
  {
    if s != [] {
      WhereMember(pass, s[..|s| - 1], x);
      assert s == s[..|s| - 1] + [s[|s| - 1]];
    }
  }

  function Flatten<T>(ss: seq<seq<T>>): seq<T> {
    if ss == [] then [] else ss[0] + Flatten(ss[1..])
  }

  lemma FlattenCons<T>(s: seq<T>, ss: seq<seq<T>>)
    ensures Flatten([s] + ss) == s + Flatten(ss)
  {
    assert ([s] + ss)[1..] == ss;
  }

  lemma {:induction false} FlattenConcat<T>(a: seq<seq<T>>, b: seq<seq<T>>)
    ensures Flatten(a + b) == Flatten(a) + Flatten(b)
  {
    if a == [] {
      assert a + b == b;
    } else {
      assert (a + b)[1..] == a[1..] + b;
      FlattenConcat(a[1..], b);
    }
  }

  lemma FlattenSnoc<T>(ss: seq<seq<T>>, s: seq<T>)
    ensures Flatten(ss + [s]) == Flatten(ss) + s
  {
    FlattenConcat(ss, [s]);
    assert Flatten([s]) == s + Flatten([]);
  }

  lemma {:induction false} FlattenMember<T>(ss: seq<seq<T>>, x: T)
    ensures x in Flatten(ss) <==> exists i :: 0 <= i < |ss| && x in ss[i]
  {
    if ss != [] {
      FlattenMember(ss[1..], x);
      if x in Flatten(ss[1..]) {
        var i :| 0 <= i < |ss[1..]| && x in ss[1..][i];
        assert x in ss[i + 1];
      }
      if i :| 0 <= i < |ss| && x in ss[i] {
        if i > 0 {
          assert x in ss[1..][i - 1];
        }
      }
    }
  }

  lemma {:induction false} SumOfPart<T(!new)>(f: T -> nat, ss: seq<seq<T>>, i: nat)
    requires i < |ss|
    ensures SumOf(f, ss[i]) <= SumOf(f, Flatten(ss))
  {
    SumOfConcat(f, ss[0], Flatten(ss[1..]));
    if i > 0 {
      SumOfPart(f, ss[1..], i - 1);
    }
  }

  /** Every message published is consumed by exactly one peer, exactly once, in any order. */
  ghost predicate Delivered<M(!new)>(sent: seq<M>, received: seq<seq<M>>) {
    multiset(Flatten(received)) == multiset(sent)
  }

  lemma {:induction false} DeliveredMember<M(!new)>(sent: seq<M>, received: seq<seq<M>>, x: M)
    requires Delivered(sent, received)
    ensures x in sent <==> exists k :: 0 <= k < |received| && x in received[k]
  {
    FlattenMember(received, x);
    assert x in sent <==> x in multiset(sent);
    assert x in Flatten(received) <==> x in multiset(Flatten(received));
  }

  lemma DeliveredSum<M(!new)>(f: M -> nat, sent: seq<M>, received: seq<seq<M>>)
    requires Delivered(sent, received)
    ensures SumOf(f, Flatten(received)) == SumOf(f, sent)
  {
    SumOfPermutation(f, Flatten(received), sent);
  }

  /** A subset that is at least as large as its superset is the whole superset. */
  lemma {:induction false} SubsetOfSameSize<T>(small: set<T>, large: set<T>)
    requires small <= large
    ensures |small| <= |large|
    ensures |small| >= |large| ==> small == large
  {
    assert |large| == |small| + |large - small| by {
      assert small + (large - small) == large;
    }
  }

  ghost predicate IsMinimum(s: set<int>, m: int) {
    m in s && forall x :: x in s ==> m <= x
  }

  lemma Pick<T>(s: set<T>) returns (x: T)
    requires s != {}
    ensures x in s
  {
    x :| x in s;
  }

  /** Iterating a Python set or dictionary: any remaining element may come next. */
  method Choose<T(==)>(s: set<T>) returns (x: T)
    requires s != {}
    ensures x in s
  {
    x :| x in s;
  }

  /** `d.get(k, set())`. */
  function SetAt<K, V>(m: map<K, set<V>>, k: K): set<V> {
    if k in m then m[k] else {}
  }

  /** `d.get(k, 0)`. */
  function NumberAt<K>(m: map<K, nat>, k: K): nat {
    if k in m then m[k] else 0
  }

  ghost predicate Distinct<T(!new)>(list: seq<T>) {
    forall i, j :: 0 <= i < j < |list| ==> list[i] != list[j]
  }

  function ElementsOf<T>(list: seq<T>): set<T> {
    set x | x in list
  }

  lemma ElementsFirst<T>(list: seq<T>)
    ensures ElementsOf(list) == if list == [] then {} else {list[0]} + ElementsOf(list[1..])
  {
    if list != [] {
      assert list == [list[0]] + list[1..];
    }
  }

  /** `d.get(k, [])`. */
  function SeqAt<K, V>(m: map<K, seq<V>>, k: K): seq<V> {
    if k in m then m[k] else []
  }

  lemma {:induction false} FindMinimum(s: set<int>) returns (m: int)
    requires s != {}
    ensures IsMinimum(s, m)
    decreases |s|
  {
    m := Pick(s);
    var rest := s - {m};
    if rest != {} {
      assert |rest| < |s|;
      var k := FindMinimum(rest);
      m := Min(m, k);
    }
    forall x | x in s ensures m <= x { assert x in rest || x !in rest; }
  }

  lemma MinimumExists(s: set<int>)
    requires s != {}
    ensures exists m :: m in s && forall x :: x in s ==> m <= x
  {
    var m := FindMinimum(s);
    assert IsMinimum(s, m);
  }

  function MinimumOf(s: set<int>): (m: int)
    requires s != {}
    ensures IsMinimum(s, m)
  {
    MinimumExists(s);
    var m :| m in s && forall x :: x in s ==> m <= x;
    m
  }

  ghost predicate Increasing(s: seq<int>) {
    forall i, j :: 0 <= i < j < |s| ==> s[i] < s[j]
  }

  /** The sorted listing of a set of integers. */
  function Sorted(s: set<int>): (r: seq<int>)
    ensures Increasing(r)
    ensures forall x :: x in r <==> x in s
    ensures |r| == |s|
    decreases |s|
  {
    if s == {} then [] else
      var m := MinimumOf(s);
      assert |s - {m}| < |s|;
      [m] + Sorted(s - {m})
  }

  // ---- Sums over a set ----------------------------------------------------------------------

  ghost function SumOver(f: int -> nat, s: set<int>): nat
    decreases |s|
  {
    if s == {} then 0 else
      var x := MinimumOf(s);
      assert |s - {x}| < |s|;
      f(x) + SumOver(f, s - {x})
  }

  /** The order of summation does not matter. */
  lemma {:induction false} SumOverRemove(f: int -> nat, s: set<int>, x: int)
    requires x in s
    ensures SumOver(f, s) == f(x) + SumOver(f, s - {x})
    decreases |s|
  {
    var m := MinimumOf(s);
    if x != m {
      assert |s - {m}| < |s|;
      SumOverRemove(f, s - {m}, x);
      assert x in s - {m};
      assert s - {m} - {x} == s - {x} - {m};
      assert |s - {x}| < |s|;
      assert IsMinimum(s - {x}, m);
      assert MinimumOf(s - {x}) == m;
    }
  }

  lemma {:induction false} SumOverSame(f: int -> nat, g: int -> nat, s: set<int>)
    requires forall x :: x in s ==> f(x) == g(x)
    ensures SumOver(f, s) == SumOver(g, s)
    decreases |s|
  {
    if s != {} {
      var m := MinimumOf(s);
      assert |s - {m}| < |s|;
      SumOverSame(f, g, s - {m});
    }
  }

  lemma {:induction false} SumOverZero(f: int -> nat, s: set<int>)
    requires forall x :: x in s ==> f(x) == 0
    ensures SumOver(f, s) == 0
    decreases |s|
  {
    if s != {} {
      var m := MinimumOf(s);
      assert |s - {m}| < |s|;
      SumOverZero(f, s - {m});
    }
  }

  lemma SumOverNone(f: int -> nat)
    ensures SumOver(f, {}) == 0
  {}

  // ---- Division -----------------------------------------------------------------------------

  lemma Quotient(total: int, n: Shards, q: int, r: int)
    requires total == q * n + r && 0 <= r < n
    ensures total / n == q && total % n == r
  {
    var d := total / n - q;
    assert total / n * n + total % n == total;
    assert d * n == r - total % n;
    Multiple(d, n);
  }

  lemma Multiple(d: int, n: Shards)
    ensures d >= 1 ==> d * n >= n
    ensures d <= -1 ==> d * n + n <= 0
  {}
}

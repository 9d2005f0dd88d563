/** Folds over sequences and over maps of queues, with the laws every accounting proof uses. */
module Collections {

  datatype Option<+T> = None | Some(value: T)

  lemma Split<T>(s: seq<T>, i: nat)
    requires i < |s|
    ensures s == s[..i] + ([s[i]] + s[i + 1..])
  {
  }

  lemma Headed<T>(x: T, s: seq<T>)
    ensures ([x] + s)[0] == x && ([x] + s)[1..] == s
  {
  }

  /** Concatenates f over s. Filters, projections and unit counts are all instances of it. */
  function FlatMap<T, U>(f: T -> seq<U>, s: seq<T>): seq<U> {
    if s == [] then [] else f(s[0]) + FlatMap(f, s[1..])
  }

  lemma {:induction false} FlatMapAppend<T, U>(f: T -> seq<U>, a: seq<T>, b: seq<T>)
    ensures FlatMap(f, a + b) == FlatMap(f, a) + FlatMap(f, b)
  {
    if a == [] {
      assert a + b == b;
    } else {
      assert (a + b)[1..] == a[1..] + b;
      FlatMapAppend(f, a[1..], b);
    }
  }

  lemma FlatMapPush<T, U>(f: T -> seq<U>, s: seq<T>, x: T)
    ensures FlatMap(f, s + [x]) == FlatMap(f, s) + f(x)
  {
    FlatMapAppend(f, s, [x]);
    assert FlatMap(f, [x]) == f(x) + FlatMap(f, []);
  }

  lemma FlatMapPop<T, U>(f: T -> seq<U>, s: seq<T>)
    requires s != []
    ensures FlatMap(f, s) == f(s[0]) + FlatMap(f, s[1..])
  {
  }

  lemma FlatMapSplit<T, U>(f: T -> seq<U>, s: seq<T>, i: nat)
    requires i < |s|
    ensures FlatMap(f, s) == FlatMap(f, s[..i]) + f(s[i]) + FlatMap(f, s[i + 1..])
  {
    hide FlatMap;
    var front, x, back := s[..i], s[i], s[i + 1..];
    Split(s, i);
    FlatMapAppend(f, front, [x] + back);
    Headed(x, back);
    FlatMapPop(f, [x] + back);
  }

  lemma FlatMapUpdate<T, U>(f: T -> seq<U>, s: seq<T>, i: nat, x: T)
    requires i < |s|
    ensures FlatMap(f, s[i := x]) == FlatMap(f, s[..i]) + f(x) + FlatMap(f, s[i + 1..])
  {
    var t := s[i := x];
    assert t[..i] == s[..i] && t[i + 1..] == s[i + 1..];
    FlatMapSplit(f, t, i);
  }

  lemma FlatMapRemove<T, U>(f: T -> seq<U>, s: seq<T>, i: nat)
    requires i < |s|
    ensures FlatMap(f, s[..i] + s[i + 1..]) == FlatMap(f, s[..i]) + FlatMap(f, s[i + 1..])
  {
    FlatMapAppend(f, s[..i], s[i + 1..]);
  }

  /** Adds up f over s. */
  function Tally<T>(f: T -> multiset<nat>, s: seq<T>): multiset<nat> {
    if s == [] then multiset{} else f(s[0]) + Tally(f, s[1..])
  }

  lemma {:induction false} TallyAppend<T>(f: T -> multiset<nat>, a: seq<T>, b: seq<T>)
    ensures Tally(f, a + b) == Tally(f, a) + Tally(f, b)
  {
    if a == [] {
      assert a + b == b;
    } else {
      assert (a + b)[1..] == a[1..] + b;
      TallyAppend(f, a[1..], b);
    }
  }

  lemma TallyPush<T>(f: T -> multiset<nat>, s: seq<T>, x: T)
    ensures Tally(f, s + [x]) == Tally(f, s) + f(x)
  {
    TallyAppend(f, s, [x]);
    assert Tally(f, [x]) == f(x) + Tally(f, []);
  }

  lemma TallyPop<T>(f: T -> multiset<nat>, s: seq<T>)
    requires s != []
    ensures Tally(f, s) == f(s[0]) + Tally(f, s[1..])
  {
  }

  lemma TallySplit<T>(f: T -> multiset<nat>, s: seq<T>, i: nat)
    requires i < |s|
    ensures Tally(f, s) == f(s[i]) + Tally(f, s[..i]) + Tally(f, s[i + 1..])
    ensures Tally(f, s) == f(s[i]) + Tally(f, s[..i] + s[i + 1..])
  {
    hide Tally;
    var front, x, back := s[..i], s[i], s[i + 1..];
    Split(s, i);
    TallyAppend(f, front, [x] + back);
    TallyAppend(f, front, back);
    Headed(x, back);
    TallyPop(f, [x] + back);
  }

  lemma TallyUpdate<T>(f: T -> multiset<nat>, s: seq<T>, i: nat, x: T)
    requires i < |s|
    ensures Tally(f, s[i := x]) + f(s[i]) == Tally(f, s) + f(x)
  {
    var t := s[i := x];
    assert t[..i] == s[..i] && t[i + 1..] == s[i + 1..];
    TallySplit(f, t, i);
    TallySplit(f, s, i);
  }

  /** Adds up f over the values of m, in any order. */
  ghost function Gather<K, V>(f: V -> multiset<nat>, m: map<K, V>): multiset<nat> {
    if m == map[] then multiset{} else
      var k :| k in m;
      f(m[k]) + Gather(f, m - {k})
  }

  lemma {:induction false} GatherAt<K, V>(f: V -> multiset<nat>, m: map<K, V>, key: K)
    requires key in m
    ensures Gather(f, m) == f(m[key]) + Gather(f, m - {key})
    decreases |m|
  {
    var first :| first in m && Gather(f, m) == f(m[first]) + Gather(f, m - {first});
    if first != key {
      GatherAt(f, m - {first}, key);
      GatherAt(f, m - {key}, first);
      assert m - {first} - {key} == m - {key} - {first};
    }
  }

  /** Replacing one value changes the total by that value alone. */
  lemma GatherSet<K, V>(f: V -> multiset<nat>, m: map<K, V>, key: K, value: V)
    ensures Gather(f, m[key := value]) + (if key in m then f(m[key]) else multiset{}) == Gather(f, m) + f(value)
  {
    GatherAt(f, m[key := value], key);
    assert m[key := value] - {key} == m - {key};
    if key in m {
      GatherAt(f, m, key);
    } else {
      assert m - {key} == m;
    }
  }

  lemma SubsetSize<T>(a: set<T>, b: set<T>)
    requires a <= b
    ensures |a| <= |b|
  {
    assert b == a + (b - a);
  }

  lemma Cancel(a: multiset<nat>, b: multiset<nat>, c: multiset<nat>)
    requires a + c == b + c
    ensures a == b
  {
    forall x: nat
      ensures a[x] == b[x]
    {
      assert (a + c)[x] == (b + c)[x];
    }
  }

  lemma Shift(rest: multiset<nat>, a: multiset<nat>, b: multiset<nat>, c: multiset<nat>, d: multiset<nat>)
    requires a + b == c + d
    ensures rest + a + b == rest + c + d
  {
    assert rest + a + b == rest + (a + b);
    assert rest + c + d == rest + (c + d);
  }

  lemma MoveLast(x: multiset<nat>, a: multiset<nat>, b: multiset<nat>, c: multiset<nat>, d: multiset<nat>,
                 e: multiset<nat>)
    ensures x + a + b + c + d + e == a + b + c + d + e + x
  {
  }

  /** The identifiers below n, each exactly once. */
  ghost function Upto(n: nat): (m: multiset<nat>)
    ensures forall i: nat :: m[i] == if i < n then 1 else 0
  {
    if n == 0 then multiset{} else Upto(n - 1) + multiset{n - 1}
  }
}

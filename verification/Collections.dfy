/** Small value types and the two collection facts the booking model rests on: a sum over the
    values of a map, and the increasing listing of a set of ids. */
module Collections {

  datatype Option<+T> = None | Some(value: T)

  /** Names a pair of keys, so that a uniqueness fact is used where it is asked for and only there. */
  predicate Pair(a: nat, b: nat) { true }

  /** Strictly increasing, so in particular without repetition. */
  predicate Increasing(s: seq<nat>) {
    forall i, j :: 0 <= i < j < |s| ==> s[i] < s[j]
  }

  function Elements<T>(s: seq<T>): set<T> {
    set x | x in s
  }

  predicate IsLeast(s: set<nat>, m: nat) {
    m in s && forall x :: x in s ==> m <= x
  }

  lemma LeastExists(s: set<nat>) returns (m: nat)
    requires s != {}
    ensures IsLeast(s, m)
    decreases |s|
  {
    var x :| x in s;
    var rest := s - {x};
    m := x;
    if rest != {} {
      var other := LeastExists(rest);
      m := if other < x then other else x;
    }
    forall y | y in s ensures m <= y {
      assert y == x || y in rest;
    }
  }

  lemma ConsIncreasing(m: nat, rest: seq<nat>)
    requires Increasing(rest) && forall x :: x in rest ==> m < x
    ensures Increasing([m] + rest)
    ensures Elements([m] + rest) == {m} + Elements(rest)
  {
    var r := [m] + rest;
    forall i, j | 0 <= i < j < |r| ensures r[i] < r[j] {
      assert r[j] == rest[j - 1] && rest[j - 1] in rest;
    }
  }

  /** The ids of a set in increasing order: `sorted(set(...))` and `ORDER BY id`. */
  function Sorted(s: set<nat>): (r: seq<nat>)
    ensures Increasing(r)
    ensures Elements(r) == s
    ensures |r| == |s|
  {
    if s == {} then []
    else
      assert exists m :: IsLeast(s, m) by { var m := LeastExists(s); }
      var m :| m in s && IsLeast(s, m);
      var rest := Sorted(s - {m});
      assert forall x :: x in rest ==> x in Elements(rest);
      ConsIncreasing(m, rest);
      [m] + rest
  }

  /** Going through the ids one at a time. */
  lemma PrefixStep(ids: seq<nat>, n: nat)
    requires Increasing(ids) && n < |ids|
    ensures ids[..n + 1] == ids[..n] + [ids[n]]
    ensures Elements(ids[..n + 1]) == Elements(ids[..n]) + {ids[n]}
    ensures ids[n] !in Elements(ids[..n]) && ids[n] in Elements(ids)
  {
    assert ids[..n + 1] == ids[..n] + [ids[n]];
    assert ids[n] in ids;
  }

  /** An increasing sequence is determined by its elements. */
  lemma {:induction false} SortedUnique(a: seq<nat>, b: seq<nat>)
    requires Increasing(a) && Increasing(b) && Elements(a) == Elements(b)
    ensures a == b
  {
    assert |a| > 0 ==> a[0] in Elements(b);
    assert |b| > 0 ==> b[0] in Elements(a);
    if |a| > 0 && |b| > 0 {
      assert a[0] == b[0];
      assert Elements(a[1..]) == Elements(a) - {a[0]};
      assert Elements(b[1..]) == Elements(b) - {b[0]};
      SortedUnique(a[1..], b[1..]);
    }
  }

  /** The sum of the values of a map. */
  ghost function Total<K>(m: map<K, int>): int
    decreases |m|
  {
    if m == map[] then 0
    else
      var k :| k in m;
      m[k] + Total(m - {k})
  }

  /** Any key may be taken out first. */
  lemma {:induction false} TotalSplit<K>(m: map<K, int>, k: K)
    requires k in m
    ensures Total(m) == m[k] + Total(m - {k})
    decreases |m|
  {
    var c :| c in m && Total(m) == m[c] + Total(m - {c});
    if c != k {
      TotalSplit(m - {c}, k);
      TotalSplit(m - {k}, c);
      assert m - {c} - {k} == m - {k} - {c};
    }
  }

  function Lookup<K>(m: map<K, int>, k: K): int {
    if k in m then m[k] else 0
  }

  /** Writing one key changes the sum by the difference at that key. */
  lemma TotalPut<K>(m: map<K, int>, k: K, v: int)
    ensures Total(m[k := v]) == Total(m) - Lookup(m, k) + v
  {
    TotalSplit(m[k := v], k);
    if k in m {
      TotalSplit(m, k);
      assert m[k := v] - {k} == m - {k};
    } else {
      assert m[k := v] - {k} == m;
    }
  }

  lemma {:induction false} TotalNonNegative<K>(m: map<K, int>)
    requires forall k :: k in m ==> 0 <= m[k]
    ensures 0 <= Total(m)
    ensures forall k :: k in m ==> m[k] <= Total(m)
    decreases |m|
  {
    forall k | k in m ensures m[k] <= Total(m) {
      TotalSplit(m, k);
      TotalNonNegative(m - {k});
    }
    if m != map[] {
      var k :| k in m;
      assert m[k] <= Total(m);
    }
  }
}

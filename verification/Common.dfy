/** Small shared vocabulary: optional values, results, sums, filters, first-occurrence lists and
    a stable sort over an externally supplied comparison. */
module Common {

  datatype Option<+T> = None | Some(value: T)

  datatype Result<+T, +E> = Ok(value: T) | Err(error: E)

  function Abs(x: int): int { if x < 0 then -x else x }

  // ---------------------------------------------------------------- sums and filters

  function SumOf<T>(s: seq<T>, f: T -> int): int {
    if |s| == 0 then 0 else SumOf(s[..|s| - 1], f) + f(s[|s| - 1])
  }

  function Filter<T(!new)>(s: seq<T>, p: T -> bool): (r: seq<T>)
    ensures forall x :: x in r <==> x in s && p(x)
  {
    if |s| == 0 then []
    else
      var r := Filter(s[..|s| - 1], p);
      if p(s[|s| - 1]) then r + [s[|s| - 1]] else r
  }

  function Map<T, U>(s: seq<T>, f: T -> U): (r: seq<U>)
    ensures |r| == |s| && forall i :: 0 <= i < |s| ==> r[i] == f(s[i])
  {
    seq(|s|, i requires 0 <= i < |s| => f(s[i]))
  }

  /** Weight f on the elements satisfying p, zero elsewhere. */
  function Where<T>(p: T -> bool, f: T -> int): T -> int { (x: T) => if p(x) then f(x) else 0 }

  function Then<T, U, V>(m: T -> U, f: U -> V): T -> V { (x: T) => f(m(x)) }

  function Both<T>(p: T -> bool, q: T -> bool): T -> bool { (x: T) => p(x) && q(x) }

  lemma SumSnoc<T>(s: seq<T>, x: T, f: T -> int)
    ensures SumOf(s + [x], f) == SumOf(s, f) + f(x)
  {
    assert (s + [x])[..|s|] == s;
  }

  lemma SumOne<T>(x: T, f: T -> int)
    ensures SumOf([x], f) == f(x)
  {
    assert [x][..0] == [];
  }

  lemma MapAppend<T, U>(s: seq<T>, t: seq<T>, f: T -> U)
    ensures Map(s + t, f) == Map(s, f) + Map(t, f)
  {
  }

  lemma MapSnoc<T, U>(s: seq<T>, x: T, f: T -> U)
    ensures Map(s + [x], f) == Map(s, f) + [f(x)] && Map([], f) == []
  {
  }

  lemma {:induction false} SumExt<T>(s: seq<T>, f: T -> int, g: T -> int)
    requires forall x :: x in s ==> f(x) == g(x)
    ensures SumOf(s, f) == SumOf(s, g)
  {
    if |s| > 0 { SumExt(s[..|s| - 1], f, g); }
  }

  lemma {:induction false} SumAppend<T>(s: seq<T>, t: seq<T>, f: T -> int)
    ensures SumOf(s + t, f) == SumOf(s, f) + SumOf(t, f)
  {
    if |t| == 0 { assert s + t == s; }
    else {
      assert (s + t)[..|s + t| - 1] == s + t[..|t| - 1];
      SumAppend(s, t[..|t| - 1], f);
    }
  }

  lemma {:induction false} SumAdd<T>(s: seq<T>, f: T -> int, g: T -> int, h: T -> int)
    requires forall x :: x in s ==> h(x) == f(x) + g(x)
    ensures SumOf(s, h) == SumOf(s, f) + SumOf(s, g)
  {
    if |s| > 0 { SumAdd(s[..|s| - 1], f, g, h); }
  }

  lemma {:induction false} SumMap<T, U>(s: seq<T>, m: T -> U, f: U -> int)
    ensures SumOf(Map(s, m), f) == SumOf(s, Then(m, f))
  {
    if |s| > 0 {
      assert Map(s, m)[..|s| - 1] == Map(s[..|s| - 1], m);
      SumMap(s[..|s| - 1], m, f);
    }
  }

  /** Summing only the selected elements is summing with the others weighted zero. */
  lemma {:induction false} SumFilter<T(!new)>(s: seq<T>, p: T -> bool, f: T -> int)
    ensures SumOf(Filter(s, p), f) == SumOf(s, Where(p, f))
  {
    if |s| > 0 {
      SumFilter(s[..|s| - 1], p, f);
      var r := Filter(s[..|s| - 1], p);
      if p(s[|s| - 1]) { assert Filter(s, p)[..|Filter(s, p)| - 1] == r; }
    }
  }

  lemma {:induction false} SumZero<T>(s: seq<T>, f: T -> int)
    requires forall x :: x in s ==> f(x) == 0
    ensures SumOf(s, f) == 0
  {
    if |s| > 0 { SumZero(s[..|s| - 1], f); }
  }

  /** A sum does not depend on the order of its terms. */
  lemma {:induction false} SumPermuted<T>(s: seq<T>, t: seq<T>, f: T -> int)
    requires multiset(s) == multiset(t)
    ensures SumOf(s, f) == SumOf(t, f)
    decreases |s|
  {
    if |s| == 0 {
      assert |multiset(t)| == 0;
    } else {
      var x := s[|s| - 1];
      assert s == s[..|s| - 1] + [x];
      assert x in multiset(t);
      var i :| 0 <= i < |t| && t[i] == x;
      assert t == t[..i] + [x] + t[i + 1..];
      var rest := t[..i] + t[i + 1..];
      assert multiset(t) == multiset(t[..i]) + multiset{x} + multiset(t[i + 1..]);
      assert multiset(s[..|s| - 1]) == multiset(s) - multiset{x};
      assert multiset(rest) == multiset(t) - multiset{x};
      SumPermuted(s[..|s| - 1], rest, f);
      SumAppend(t[..i], t[i + 1..], f);
      SumAppend(t[..i] + [x], t[i + 1..], f);
      assert SumOf([x], f) == f(x) by { assert [x][..0] == []; }
      SumAppend(t[..i], [x], f);
    }
  }

  /** Weight f on the elements with key k, zero elsewhere. */
  function Only<T, K(==)>(key: T -> K, k: K, f: T -> int): T -> int {
    (x: T) => if key(x) == k then f(x) else 0
  }

  function Among<T, K(==)>(key: T -> K, ks: seq<K>, f: T -> int): T -> int {
    (x: T) => if key(x) in ks then f(x) else 0
  }

  function PerKey<T, K(==)>(s: seq<T>, key: T -> K, f: T -> int): K -> int {
    (k: K) => SumOf(s, Only(key, k, f))
  }

  /** Summing key by key and summing element by element are the same. */
  lemma {:induction false} Partition<T, K>(s: seq<T>, key: T -> K, ks: seq<K>, f: T -> int)
    requires forall i, j :: 0 <= i < j < |ks| ==> ks[i] != ks[j]
    ensures SumOf(ks, PerKey(s, key, f)) == SumOf(s, Among(key, ks, f))
  {
    if |ks| == 0 {
      SumZero(s, Among(key, ks, f));
    } else {
      var front, k := ks[..|ks| - 1], ks[|ks| - 1];
      Partition(s, key, front, f);
      assert ks == front + [k];
      assert k !in front;
      SumAdd(s, Among(key, front, f), Only(key, k, f), Among(key, ks, f));
    }
  }

  lemma {:induction false} FilterAppend<T(!new)>(s: seq<T>, t: seq<T>, p: T -> bool)
    ensures Filter(s + t, p) == Filter(s, p) + Filter(t, p)
  {
    if |t| == 0 { assert s + t == s; }
    else {
      assert (s + t)[..|s + t| - 1] == s + t[..|t| - 1];
      FilterAppend(s, t[..|t| - 1], p);
    }
  }

  lemma {:induction false} FilterExt<T(!new)>(s: seq<T>, p: T -> bool, q: T -> bool)
    requires forall x :: x in s ==> p(x) == q(x)
    ensures Filter(s, p) == Filter(s, q)
  {
    if |s| > 0 { FilterExt(s[..|s| - 1], p, q); }
  }

  lemma {:induction false} FilterFilter<T(!new)>(s: seq<T>, p: T -> bool, q: T -> bool)
    ensures Filter(Filter(s, p), q) == Filter(s, Both(p, q))
  {
    if |s| > 0 {
      FilterFilter(s[..|s| - 1], p, q);
      var r := Filter(s[..|s| - 1], p);
      if p(s[|s| - 1]) { assert Filter(s, p)[..|Filter(s, p)| - 1] == r; }
    }
  }

  lemma {:induction false} FilterMap<T(!new), U(!new)>(s: seq<T>, m: T -> U, p: U -> bool)
    ensures Filter(Map(s, m), p) == Map(Filter(s, Then(m, p)), m)
  {
    if |s| > 0 {
      assert Map(s, m)[..|s| - 1] == Map(s[..|s| - 1], m);
      FilterMap(s[..|s| - 1], m, p);
    }
  }

  // ---------------------------------------------------------------- first occurrences

  /** Insertion order of a map filled from `s`: each key once, at its first occurrence. */
  function FirstSeen<K(==,!new)>(s: seq<K>): (r: seq<K>)
    ensures forall k :: k in r <==> k in s
    ensures forall i, j :: 0 <= i < j < |r| ==> r[i] != r[j]
  {
    if |s| == 0 then []
    else
      var r := FirstSeen(s[..|s| - 1]);
      if s[|s| - 1] in r then r else r + [s[|s| - 1]]
  }

  // ---------------------------------------------------------------- stable sort

  /** Stable insertion sort by a three-way comparison supplied from outside. */
  function Insert<T>(x: T, s: seq<T>, cmp: (T, T) -> int): (r: seq<T>)
    ensures multiset(r) == multiset(s) + multiset{x}
  {
    if |s| == 0 then [x]
    else if cmp(s[|s| - 1], x) <= 0 then s + [x]
    else
      assert s == s[..|s| - 1] + [s[|s| - 1]];
      Insert(x, s[..|s| - 1], cmp) + [s[|s| - 1]]
  }

  function Sort<T>(s: seq<T>, cmp: (T, T) -> int): (r: seq<T>)
    ensures multiset(r) == multiset(s)
    ensures |r| == |s|
  {
    if |s| == 0 then []
    else
      assert s == s[..|s| - 1] + [s[|s| - 1]];
      var r := Insert(s[|s| - 1], Sort(s[..|s| - 1], cmp), cmp);
      assert multiset(r) == multiset(s);
      assert |multiset(r)| == |r|;
      r
  }

  /** The comparison puts any two elements in order, and does so consistently. */
  ghost predicate Orders<T(!new)>(cmp: (T, T) -> int) {
    && (forall x, y :: cmp(x, y) <= 0 || cmp(y, x) <= 0)
    && (forall x, y, z :: cmp(x, y) <= 0 && cmp(y, z) <= 0 ==> cmp(x, z) <= 0)
  }

  /** A comparison of texts that orders them, where swapping two texts changes the sign. */
  ghost predicate TextOrder(collate: (string, string) -> int) {
    Orders(collate) && forall x, y :: collate(x, y) < 0 <==> collate(y, x) > 0
  }

  ghost predicate Sorted<T(!new)>(s: seq<T>, cmp: (T, T) -> int) {
    forall i, j :: 0 <= i < j < |s| ==> cmp(s[i], s[j]) <= 0
  }

  lemma OrderedThrough<T(!new)>(cmp: (T, T) -> int, x: T, y: T, z: T)
    requires Orders(cmp)
    ensures cmp(x, y) <= 0 || cmp(y, x) <= 0
    ensures cmp(x, y) <= 0 && cmp(y, z) <= 0 ==> cmp(x, z) <= 0
  {
  }

  ghost predicate NoneAfter<T(!new)>(s: seq<T>, x: T, cmp: (T, T) -> int) { forall y :: y in s ==> cmp(y, x) <= 0 }

  lemma SortedSnoc<T(!new)>(s: seq<T>, x: T, cmp: (T, T) -> int)
    requires Sorted(s, cmp) && NoneAfter(s, x, cmp)
    ensures Sorted(s + [x], cmp)
  {
    forall i, j | 0 <= i < j < |s + [x]| ensures cmp((s + [x])[i], (s + [x])[j]) <= 0 {
      if j == |s| { assert s[i] in s; }
    }
  }

  lemma SortedFront<T(!new)>(s: seq<T>, cmp: (T, T) -> int)
    requires Sorted(s, cmp) && |s| > 0
    ensures Sorted(s[..|s| - 1], cmp)
    ensures NoneAfter(s[..|s| - 1], s[|s| - 1], cmp)
  {
    var front := s[..|s| - 1];
    forall y | y in front ensures cmp(y, s[|s| - 1]) <= 0 {
      var i :| 0 <= i < |front| && front[i] == y;
    }
  }

  lemma InsertMembers<T(!new)>(x: T, s: seq<T>, cmp: (T, T) -> int, y: T)
    ensures y in Insert(x, s, cmp) <==> y in s || y == x
  {
    assert y in multiset(Insert(x, s, cmp)) <==> y in multiset(s) || y == x;
  }

  /** Whatever `cmp` decides, ties included, `order` allows. */
  ghost predicate Respects<T(!new)>(cmp: (T, T) -> int, order: (T, T) -> int) {
    forall x, y :: if cmp(x, y) <= 0 then order(x, y) <= 0 else order(y, x) <= 0
  }

  lemma Respected<T(!new)>(cmp: (T, T) -> int, order: (T, T) -> int, x: T, y: T)
    requires Respects(cmp, order)
    ensures if cmp(x, y) <= 0 then order(x, y) <= 0 else order(y, x) <= 0
  {
  }

  lemma {:induction false} InsertSorts<T(!new)>(x: T, s: seq<T>, cmp: (T, T) -> int, order: (T, T) -> int)
    requires Orders(order) && Respects(cmp, order) && Sorted(s, order)
    ensures Sorted(Insert(x, s, cmp), order)
  {
    hide Orders, Sorted, Respects;
    if |s| > 0 {
      var n := |s| - 1;
      SortedFront(s, order);
      Respected(cmp, order, s[n], x);
      if cmp(s[n], x) <= 0 {
        forall y | y in s ensures order(y, x) <= 0 {
          if y != s[n] {
            assert s == s[..n] + [s[n]] && y in s[..n];
            OrderedThrough(order, y, s[n], x);
          }
        }
        SortedSnoc(s, x, order);
      } else {
        InsertSorts(x, s[..n], cmp, order);
        var r := Insert(x, s[..n], cmp);
        forall y | y in r ensures order(y, s[n]) <= 0 { InsertMembers(x, s[..n], cmp, y); }
        SortedSnoc(r, s[n], order);
      }
    } else {
      OneSorted(x, order);
    }
  }

  lemma OneSorted<T(!new)>(x: T, cmp: (T, T) -> int)
    ensures Sorted([x], cmp) && Sorted([], cmp)
  {
  }

  /** Sorting by a comparison that may decide ties either way. */
  lemma {:induction false} SortSortsBy<T(!new)>(s: seq<T>, cmp: (T, T) -> int, order: (T, T) -> int)
    requires Orders(order) && Respects(cmp, order)
    ensures Sorted(Sort(s, cmp), order)
  {
    hide Orders, Respects, Insert;
    if |s| > 0 {
      SortSortsBy(s[..|s| - 1], cmp, order);
      InsertSorts(s[|s| - 1], Sort(s[..|s| - 1], cmp), cmp, order);
    }
  }

  lemma SortSorts<T(!new)>(s: seq<T>, cmp: (T, T) -> int)
    requires Orders(cmp)
    ensures Sorted(Sort(s, cmp), cmp)
  {
    assert Respects(cmp, cmp);
    SortSortsBy(s, cmp, cmp);
  }

  lemma SortMembers<T>(s: seq<T>, cmp: (T, T) -> int, x: T)
    ensures x in Sort(s, cmp) <==> x in s
  {
    assert x in multiset(Sort(s, cmp)) <==> x in multiset(s);
  }
}

/** Python list behaviour the modelled code relies on: slicing with clamped and
    negative bounds, and `list.sort(key=..., reverse=True)`, which is stable. */
module PySeqs {

  /** How Python turns a slice bound `k` into a position in a sequence of length `n`:
      a negative bound counts from the end, and every bound is clamped into `0..n`. */
  function SliceBound(n: nat, k: int): (b: nat)
    ensures b <= n
  {
    if k < 0 then (if n + k < 0 then 0 else n + k) else if k > n then n else k
  }

  /** `s[k:]`. For `k < 0` it is the last `-k` elements (all of `s` when it is shorter);
      for `k >= 0` it drops the first `k`. In particular `s[-0:]` is the whole of `s`. */
  function SliceFrom<T>(s: seq<T>, k: int): seq<T>
  {
    s[SliceBound(|s|, k)..]
  }

  /** `s[:k]`. For `k >= 0` it is the first `k` elements (all of `s` when it is shorter);
      for `k < 0` it drops the last `-k`. */
  function SliceTo<T>(s: seq<T>, k: int): seq<T>
  {
    s[..SliceBound(|s|, k)]
  }

  /** `s[k:]` is the suffix of `s` holding its last `-k` elements for a negative `k`
      (all of `s` when it is shorter) and all but the first `k` otherwise; `s[:k]` is
      the matching prefix. */
  lemma SliceShape<T>(s: seq<T>, k: int)
    ensures SliceFrom(s, k) == s[|s| - |SliceFrom(s, k)|..]
    ensures k < 0 ==> |SliceFrom(s, k)| == (if -k <= |s| then -k else |s|)
    ensures k >= 0 ==> |SliceFrom(s, k)| == (if k <= |s| then |s| - k else 0)
    ensures SliceTo(s, k) == s[..|SliceTo(s, k)|]
    ensures k >= 0 ==> |SliceTo(s, k)| == (if k <= |s| then k else |s|)
    ensures k < 0 ==> |SliceTo(s, k)| == (if -k <= |s| then |s| + k else 0)
  {
  }

  /** Keys never increase from left to right. */
  predicate SortedDesc<T>(s: seq<T>, key: T -> real) {
    forall i, j :: 0 <= i < j < |s| ==> key(s[i]) >= key(s[j])
  }

  /** The elements of `s` whose key is `v`, in their order in `s`. A sort is stable
      exactly when it leaves every such subsequence as it was. */
  function KeyFilter<T>(s: seq<T>, key: T -> real, v: real): seq<T>
    decreases |s|
  {
    if s == [] then []
    else if key(s[0]) == v then [s[0]] + KeyFilter(s[1..], key, v)
    else KeyFilter(s[1..], key, v)
  }

  lemma KeyFilterCons<T>(x: T, s: seq<T>, key: T -> real, v: real)
    ensures KeyFilter([x] + s, key, v) == (if key(x) == v then [x] else []) + KeyFilter(s, key, v)
  {
    assert ([x] + s)[1..] == s;
  }

  lemma {:induction false} KeyFilterAppend<T>(a: seq<T>, b: seq<T>, key: T -> real, v: real)
    ensures KeyFilter(a + b, key, v) == KeyFilter(a, key, v) + KeyFilter(b, key, v)
    decreases |a|
  {
    if a == [] {
      assert a + b == b;
    } else {
      var h := if key(a[0]) == v then [a[0]] else [];
      assert a + b == [a[0]] + (a[1..] + b);
      KeyFilterCons(a[0], a[1..] + b, key, v);
      KeyFilterAppend(a[1..], b, key, v);
      KeyFilterCons(a[0], a[1..], key, v);
      assert a == [a[0]] + a[1..];
      assert h + (KeyFilter(a[1..], key, v) + KeyFilter(b, key, v))
          == (h + KeyFilter(a[1..], key, v)) + KeyFilter(b, key, v);
    }
  }

  lemma {:induction false} KeyFilterNone<T>(s: seq<T>, key: T -> real, v: real)
    requires forall k :: 0 <= k < |s| ==> key(s[k]) < v
    ensures KeyFilter(s, key, v) == []
    decreases |s|
  {
    if s != [] {
      KeyFilterNone(s[1..], key, v);
    }
  }

  /** Inserts `x` after every element whose key is at least `key(x)`. */
  function InsertDesc<T>(s: seq<T>, x: T, key: T -> real): seq<T>
    decreases |s|
  {
    if s == [] then [x]
    else if key(s[0]) < key(x) then [x] + s
    else [s[0]] + InsertDesc(s[1..], x, key)
  }

  lemma {:induction false} InsertDescPerm<T>(s: seq<T>, x: T, key: T -> real)
    ensures |InsertDesc(s, x, key)| == |s| + 1
    ensures multiset(InsertDesc(s, x, key)) == multiset(s) + multiset{x}
    decreases |s|
  {
    if s != [] && key(s[0]) >= key(x) {
      InsertDescPerm(s[1..], x, key);
      assert s == [s[0]] + s[1..];
    }
  }

  /** No key in the sequence exceeds `b`. */
  predicate KeysAtMost<T>(s: seq<T>, key: T -> real, b: real) {
    forall k :: 0 <= k < |s| ==> key(s[k]) <= b
  }

  lemma {:induction false} InsertDescAtMost<T>(s: seq<T>, x: T, key: T -> real, b: real)
    requires KeysAtMost(s, key, b) && key(x) <= b
    ensures KeysAtMost(InsertDesc(s, x, key), key, b)
    decreases |s|
  {
    if s != [] && key(s[0]) >= key(x) {
      InsertDescAtMost(s[1..], x, key, b);
      var r := InsertDesc(s, x, key);
      forall k | 0 <= k < |r| ensures key(r[k]) <= b {
        if k > 0 {
          assert r[k] == InsertDesc(s[1..], x, key)[k - 1];
        }
      }
    }
  }

  lemma {:induction false} InsertDescSorted<T>(s: seq<T>, x: T, key: T -> real)
    requires SortedDesc(s, key)
    ensures SortedDesc(InsertDesc(s, x, key), key)
    decreases |s|
  {
    if s == [] {
    } else if key(s[0]) < key(x) {
      var r := [x] + s;
      forall i, j | 0 <= i < j < |r| ensures key(r[i]) >= key(r[j]) {
        if i > 0 {
          assert r[i] == s[i - 1];
        }
        assert r[j] == s[j - 1];
      }
    } else {
      SortedTail(s, key);
      var tail := InsertDesc(s[1..], x, key);
      InsertDescSorted(s[1..], x, key);
      assert KeysAtMost(s[1..], key, key(s[0])) by {
        forall k | 0 <= k < |s[1..]| ensures key(s[1..][k]) <= key(s[0]) {
          assert s[1..][k] == s[k + 1];
        }
      }
      InsertDescAtMost(s[1..], x, key, key(s[0]));
      var r := [s[0]] + tail;
      forall i, j | 0 <= i < j < |r| ensures key(r[i]) >= key(r[j]) {
        assert r[j] == tail[j - 1];
        if i > 0 {
          assert r[i] == tail[i - 1];
        }
      }
    }
  }

  lemma {:induction false} InsertDescStable<T>(s: seq<T>, x: T, key: T -> real, v: real)
    requires SortedDesc(s, key)
    ensures KeyFilter(InsertDesc(s, x, key), key, v)
            == KeyFilter(s, key, v) + (if key(x) == v then [x] else [])
    decreases |s|
  {
    var hx := if key(x) == v then [x] else [];
    if s == [] {
      KeyFilterCons(x, [], key, v);
      assert [x] + [] == [x];
    } else if key(s[0]) < key(x) {
      KeyFilterCons(x, s, key, v);
      if key(x) == v {
        forall k | 0 <= k < |s| ensures key(s[k]) < v {
          if k > 0 {
            assert key(s[0]) >= key(s[k]);
          }
        }
        KeyFilterNone(s, key, v);
      }
    } else {
      var hs := if key(s[0]) == v then [s[0]] else [];
      SortedTail(s, key);
      InsertDescStable(s[1..], x, key, v);
      KeyFilterCons(s[0], InsertDesc(s[1..], x, key), key, v);
      KeyFilterCons(s[0], s[1..], key, v);
      assert [s[0]] + s[1..] == s;
      assert hs + (KeyFilter(s[1..], key, v) + hx) == (hs + KeyFilter(s[1..], key, v)) + hx;
    }
  }

  lemma SortedTail<T>(s: seq<T>, key: T -> real)
    requires s != [] && SortedDesc(s, key)
    ensures SortedDesc(s[1..], key)
  {
    forall i, j | 0 <= i < j < |s| - 1 ensures key(s[1..][i]) >= key(s[1..][j]) {
      assert s[1..][i] == s[i + 1] && s[1..][j] == s[j + 1];
    }
  }

  /** `sorted(s, key=key, reverse=True)` by insertion of each element in turn. */
  function SortDesc<T>(s: seq<T>, key: T -> real): seq<T>
    decreases |s|
  {
    if s == [] then [] else InsertDesc(SortDesc(s[..|s| - 1], key), s[|s| - 1], key)
  }

  lemma SortDescStableStep<T>(s: seq<T>, key: T -> real, v: real)
    requires s != []
    requires SortedDesc(SortDesc(s[..|s| - 1], key), key)
    requires KeyFilter(SortDesc(s[..|s| - 1], key), key, v) == KeyFilter(s[..|s| - 1], key, v)
    ensures KeyFilter(SortDesc(s, key), key, v) == KeyFilter(s, key, v)
  {
    var init := s[..|s| - 1];
    var x := s[|s| - 1];
    InsertDescStable(SortDesc(init, key), x, key, v);
    assert s == init + [x];
    KeyFilterAppend(init, [x], key, v);
    KeyFilterCons(x, [], key, v);
    assert [x] + [] == [x];
  }

  /** Python's sort is a permutation, orders the keys, and is stable also when
      reversed: elements with equal keys keep their input order. */
  lemma {:induction false} SortDescSpec<T>(s: seq<T>, key: T -> real)
    ensures |SortDesc(s, key)| == |s| && multiset(SortDesc(s, key)) == multiset(s)
    ensures SortedDesc(SortDesc(s, key), key)
    ensures forall v :: KeyFilter(SortDesc(s, key), key, v) == KeyFilter(s, key, v)
    decreases |s|
  {
    if s != [] {
      var init := s[..|s| - 1];
      var x := s[|s| - 1];
      SortDescSpec(init, key);
      InsertDescPerm(SortDesc(init, key), x, key);
      InsertDescSorted(SortDesc(init, key), x, key);
      assert s == init + [x];
      forall v ensures KeyFilter(SortDesc(s, key), key, v) == KeyFilter(s, key, v) {
        SortDescStableStep(s, key, v);
      }
    }
  }

  /** A subset is no larger than its superset: `len(set(...))` never exceeds the size
      of a set that holds it. */
  lemma {:induction false} SubsetCardinality<T>(a: set<T>, b: set<T>)
    requires a <= b
    ensures |a| <= |b|
    decreases b
  {
    if a != {} {
      var x :| x in a;
      SubsetCardinality(a - {x}, b - {x});
    }
  }

  /** `[x for x in s if p(x)]`. */
  function Filter<T>(s: seq<T>, p: T -> bool): seq<T>
    decreases |s|
  {
    if s == [] then []
    else if p(s[0]) then [s[0]] + Filter(s[1..], p)
    else Filter(s[1..], p)
  }

  /** A comprehension with a condition keeps exactly the elements that satisfy it,
      so never more than it was given. */
  lemma {:induction false} FilterSpec<T>(s: seq<T>, p: T -> bool)
    ensures |Filter(s, p)| <= |s|
    ensures forall x :: x in Filter(s, p) <==> x in s && p(x)
    decreases |s|
  {
    if s != [] {
      FilterSpec(s[1..], p);
      assert forall x :: x in s <==> x == s[0] || x in s[1..];
    }
  }

  /** The comprehension keeps order and multiplicity: the kept elements of a
      concatenation are those of its first part followed by those of its second. */
  lemma {:induction false} FilterAppend<T>(a: seq<T>, b: seq<T>, p: T -> bool)
    ensures Filter(a + b, p) == Filter(a, p) + Filter(b, p)
    decreases |a|
  {
    if a == [] {
      assert a + b == b;
    } else {
      assert (a + b)[0] == a[0];
      assert (a + b)[1..] == a[1..] + b;
      FilterAppend(a[1..], b, p);
    }
  }

  /** The comprehension built element by element: nothing from nothing, and one more
      element is appended exactly when it satisfies the condition. */
  lemma FilterSnoc<T>(s: seq<T>, x: T, p: T -> bool)
    ensures Filter([], p) == []
    ensures Filter(s + [x], p) == Filter(s, p) + (if p(x) then [x] else [])
  {
    FilterAppend(s, [x], p);
    assert [x][1..] == [];
  }

  /** `[f(x) for x in s]`. */
  function Map<A, B>(f: A -> B, s: seq<A>): (r: seq<B>)
    ensures |r| == |s|
    decreases |s|
  {
    if s == [] then [] else Map(f, s[..|s| - 1]) + [f(s[|s| - 1])]
  }

  lemma {:induction false} MapAt<A, B>(f: A -> B, s: seq<A>)
    ensures forall k :: 0 <= k < |s| ==> Map(f, s)[k] == f(s[k])
    decreases |s|
  {
    if s != [] {
      MapAt(f, s[..|s| - 1]);
    }
  }

  /** Mapping one more element appends its image. */
  lemma MapStep<A, B>(f: A -> B, s: seq<A>, k: nat)
    requires k < |s|
    ensures Map(f, s[..k + 1]) == Map(f, s[..k]) + [f(s[k])]
  {
    assert s[..k + 1][..k] == s[..k];
  }
}

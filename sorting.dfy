/**
 * The two slice operations of Rust's standard library that finalisation uses:
 * `sort_by`, a stable sort under a total preorder, and `dedup_by`, which drops
 * every element that its predicate pairs with the last element kept.
 */
module Sorting {
  import opened Strings

  ghost predicate TotalPreorder<T(!new)>(le: (T, T) -> bool) {
    && (forall a, b :: le(a, b) || le(b, a))
    && (forall a, b, c :: le(a, b) && le(b, c) ==> le(a, c))
  }

  ghost predicate Sorted<T>(s: seq<T>, le: (T, T) -> bool) {
    forall i, j :: 0 <= i < j < |s| ==> le(s[i], s[j])
  }

  /** The order that compares two elements by a string key, as `a.key.cmp(&b.key)` does. */
  function KeyLe<T>(key: T -> string): (T, T) -> bool {
    (a: T, b: T) => LessEq(key(a), key(b))
  }

  lemma KeyLeIsTotalPreorder<T(!new)>(key: T -> string)
    ensures TotalPreorder(KeyLe(key))
  {
    forall a: T, b: T ensures KeyLe(key)(a, b) || KeyLe(key)(b, a) {
      LessEqTotal(key(a), key(b));
    }
    forall a: T, b: T, c: T | KeyLe(key)(a, b) && KeyLe(key)(b, c)
      ensures KeyLe(key)(a, c)
    {
      LessEqTransitive(key(a), key(b), key(c));
    }
  }

  // ---------------------------------------------------------------------------
  // Stable sort

  /** Puts `x` in front of the first element it is not above. */
  function Insert<T>(x: T, s: seq<T>, le: (T, T) -> bool): seq<T> {
    if |s| == 0 then [x]
    else if le(x, s[0]) then [x] + s
    else [s[0]] + Insert(x, s[1..], le)
  }

  /** Insertion sort: stable, since each element goes in front of the equivalent ones that follow it. */
  function SortBy<T>(s: seq<T>, le: (T, T) -> bool): seq<T> {
    if |s| == 0 then [] else Insert(s[0], SortBy(s[1..], le), le)
  }

  lemma {:induction false} InsertPermutes<T>(x: T, s: seq<T>, le: (T, T) -> bool)
    ensures multiset(Insert(x, s, le)) == multiset(s) + multiset{x}
  {
    if |s| > 0 && !le(x, s[0]) {
      InsertPermutes(x, s[1..], le);
      assert s == [s[0]] + s[1..];
    }
  }

  /** Sorting permutes its input. */
  lemma {:induction false} SortByPermutes<T>(s: seq<T>, le: (T, T) -> bool)
    ensures multiset(SortBy(s, le)) == multiset(s)
    ensures |SortBy(s, le)| == |s|
  {
    if |s| > 0 {
      SortByPermutes(s[1..], le);
      InsertPermutes(s[0], SortBy(s[1..], le), le);
      assert s == [s[0]] + s[1..];
    }
    assert |multiset(SortBy(s, le))| == |multiset(s)|;
  }

  lemma {:induction false} InsertSorted<T(!new)>(x: T, s: seq<T>, le: (T, T) -> bool)
    requires TotalPreorder(le) && Sorted(s, le)
    ensures Sorted(Insert(x, s, le), le)
  {
    if |s| > 0 && !le(x, s[0]) {
      InsertSorted(x, s[1..], le);
      InsertPermutes(x, s[1..], le);
      var r := Insert(x, s[1..], le);
      forall j | 0 <= j < |r| ensures le(s[0], r[j]) {
        assert r[j] in multiset(r);
        if r[j] != x {
          assert r[j] in multiset(s[1..]);
          var k :| 0 <= k < |s[1..]| && s[1..][k] == r[j];
          assert s[k + 1] == r[j];
        }
      }
    }
  }

  /** Sorting yields an ordered sequence. */
  lemma {:induction false} SortBySorted<T(!new)>(s: seq<T>, le: (T, T) -> bool)
    requires TotalPreorder(le)
    ensures Sorted(SortBy(s, le), le)
  {
    if |s| > 0 {
      SortBySorted(s[1..], le);
      InsertSorted(s[0], SortBy(s[1..], le), le);
    }
  }

  /** The elements of `s` that are equivalent to `p` under `le`, in their order in `s`. */
  function Equivalents<T>(s: seq<T>, p: T, le: (T, T) -> bool): seq<T> {
    if |s| == 0 then []
    else (if le(s[0], p) && le(p, s[0]) then [s[0]] else []) + Equivalents(s[1..], p, le)
  }

  lemma {:induction false} InsertKeepsEquivalents<T(!new)>(x: T, s: seq<T>, p: T, le: (T, T) -> bool)
    requires TotalPreorder(le)
    ensures Equivalents(Insert(x, s, le), p, le) ==
      (if le(x, p) && le(p, x) then [x] else []) + Equivalents(s, p, le)
  {
    if |s| > 0 {
      if le(x, s[0]) {
        assert ([x] + s)[1..] == s;
      } else {
        var r := Insert(x, s[1..], le);
        InsertKeepsEquivalents(x, s[1..], p, le);
        assert ([s[0]] + r)[1..] == r;
        assert Equivalents(Insert(x, s, le), p, le) ==
          (if le(s[0], p) && le(p, s[0]) then [s[0]] else []) + Equivalents(r, p, le);
        assert Equivalents(s, p, le) ==
          (if le(s[0], p) && le(p, s[0]) then [s[0]] else []) + Equivalents(s[1..], p, le);
        // x is strictly above s[0], so at most one of the two is equivalent to p
        assert !(le(x, p) && le(p, s[0]));
      }
    }
  }

  /** Stability: the elements equivalent to any `p` keep their relative order. */
  lemma {:induction false} SortByStable<T(!new)>(s: seq<T>, p: T, le: (T, T) -> bool)
    requires TotalPreorder(le)
    ensures Equivalents(SortBy(s, le), p, le) == Equivalents(s, p, le)
  {
    if |s| > 0 {
      SortByStable(s[1..], p, le);
      InsertKeepsEquivalents(s[0], SortBy(s[1..], le), p, le);
    }
  }

  // ---------------------------------------------------------------------------
  // Deduplication

  /** `dedup_by` with a key-equality predicate: each element is compared with the last one kept. */
  function DedupBy<T>(s: seq<T>, key: T -> string): seq<T>
    decreases |s|
  {
    if |s| <= 1 then s
    else if key(s[1]) == key(s[0]) then DedupBy([s[0]] + s[2..], key)
    else [s[0]] + DedupBy(s[1..], key)
  }

  /** All elements sharing a key stand next to each other. */
  ghost predicate Grouped<T>(s: seq<T>, key: T -> string) {
    forall i, j, l :: 0 <= i < j < l < |s| && key(s[i]) == key(s[l]) ==> key(s[j]) == key(s[i])
  }

  /** The elements of `s` whose key is `k`, in order. */
  function WithKey<T>(s: seq<T>, key: T -> string, k: string): seq<T> {
    if |s| == 0 then []
    else (if key(s[0]) == k then [s[0]] else []) + WithKey(s[1..], key, k)
  }

  function FirstOf<T>(s: seq<T>): seq<T> {
    if |s| == 0 then [] else [s[0]]
  }

  lemma {:induction false} DedupDropsSecond<T>(s: seq<T>, key: T -> string, k: string)
    requires |s| >= 2 && key(s[1]) == key(s[0])
    ensures FirstOf(WithKey(s, key, k)) == FirstOf(WithKey([s[0]] + s[2..], key, k))
  {
    var t := [s[0]] + s[2..];
    assert s[1..][1..] == s[2..] && t[1..] == s[2..];
    assert WithKey(s[1..], key, k) ==
      (if key(s[1]) == k then [s[1]] else []) + WithKey(s[2..], key, k);
  }

  lemma {:induction false} WithKeyAbsent<T>(s: seq<T>, key: T -> string, k: string)
    requires forall i :: 0 <= i < |s| ==> key(s[i]) != k
    ensures WithKey(s, key, k) == []
  {
    if |s| > 0 {
      WithKeyAbsent(s[1..], key, k);
    }
  }

  /**
   * On a sequence whose equal keys stand together, deduplication keeps exactly
   * the first element of every key.
   */
  lemma {:induction false} DedupKeepsFirst<T>(s: seq<T>, key: T -> string, k: string)
    requires Grouped(s, key)
    ensures WithKey(DedupBy(s, key), key, k) == FirstOf(WithKey(s, key, k))
    decreases |s|
  {
    if |s| <= 1 {
      if |s| == 1 {
        assert s[1..] == [];
      }
    } else if key(s[1]) == key(s[0]) {
      var t := [s[0]] + s[2..];
      forall i, j, l | 0 <= i < j < l < |t| && key(t[i]) == key(t[l])
        ensures key(t[j]) == key(t[i])
      {
        var i' := if i == 0 then 0 else i + 1;
        assert t[i] == s[i'] && t[j] == s[j + 1] && t[l] == s[l + 1];
      }
      DedupKeepsFirst(t, key, k);
      DedupDropsSecond(s, key, k);
    } else {
      var rest := s[1..];
      assert Grouped(rest, key) by {
        forall i, j, l | 0 <= i < j < l < |rest| && key(rest[i]) == key(rest[l])
          ensures key(rest[j]) == key(rest[i])
        {
          assert rest[i] == s[i + 1] && rest[j] == s[j + 1] && rest[l] == s[l + 1];
        }
      }
      DedupKeepsFirst(rest, key, k);
      assert ([s[0]] + DedupBy(rest, key))[1..] == DedupBy(rest, key);
      if key(s[0]) == k {
        forall i | 0 <= i < |rest| ensures key(rest[i]) != k {
          assert rest[i] == s[i + 1];
        }
        WithKeyAbsent(rest, key, k);
      }
    }
  }

  /** A sequence ordered by a string key has its equal keys grouped together. */
  lemma SortedIsGrouped<T>(s: seq<T>, key: T -> string)
    requires Sorted(s, KeyLe(key))
    ensures Grouped(s, key)
  {
    forall i, j, l | 0 <= i < j < l < |s| && key(s[i]) == key(s[l])
      ensures key(s[j]) == key(s[i])
    {
      assert LessEq(key(s[i]), key(s[j])) && LessEq(key(s[j]), key(s[l]));
      LessEqTransitive(key(s[j]), key(s[l]), key(s[i]));
      LessEqAntisymmetric(key(s[i]), key(s[j]));
    }
  }

  /** Every element deduplication keeps comes from the input. */
  lemma {:induction false} DedupBySubset<T>(s: seq<T>, key: T -> string)
    ensures multiset(DedupBy(s, key)) <= multiset(s)
    decreases |s|
  {
    if |s| > 1 {
      if key(s[1]) == key(s[0]) {
        var t := [s[0]] + s[2..];
        DedupBySubset(t, key);
        assert s == [s[0]] + [s[1]] + s[2..];
      } else {
        DedupBySubset(s[1..], key);
        assert s == [s[0]] + s[1..];
      }
    }
  }

  /** Deduplication keeps a sorted sequence sorted. */
  lemma {:induction false} DedupBySorted<T>(s: seq<T>, key: T -> string, le: (T, T) -> bool)
    requires Sorted(s, le)
    ensures Sorted(DedupBy(s, key), le)
    decreases |s|
  {
    if |s| > 1 {
      if key(s[1]) == key(s[0]) {
        var t := [s[0]] + s[2..];
        forall i, j | 0 <= i < j < |t| ensures le(t[i], t[j]) {
          var i' := if i == 0 then 0 else i + 1;
          assert t[i] == s[i'] && t[j] == s[j + 1];
        }
        DedupBySorted(t, key, le);
      } else {
        var rest := s[1..];
        assert Sorted(rest, le) by {
          forall i, j | 0 <= i < j < |rest| ensures le(rest[i], rest[j]) {
            assert rest[i] == s[i + 1] && rest[j] == s[j + 1];
          }
        }
        DedupBySorted(rest, key, le);
        DedupBySubset(rest, key);
        var d := DedupBy(rest, key);
        forall j | 0 <= j < |d| ensures le(s[0], d[j]) {
          assert d[j] in multiset(rest);
          var k :| 0 <= k < |rest| && rest[k] == d[j];
          assert rest[k] == s[k + 1];
        }
        var r := [s[0]] + d;
        forall i, j | 0 <= i < j < |r| ensures le(r[i], r[j]) {
          if i > 0 {
            assert r[i] == d[i - 1] && r[j] == d[j - 1];
          } else {
            assert r[j] == d[j - 1];
          }
        }
      }
    }
  }

  /** When every element has key `k`, selecting key `k` selects everything. */
  lemma {:induction false} WithKeyAll<T>(s: seq<T>, key: T -> string, k: string)
    requires forall i :: 0 <= i < |s| ==> key(s[i]) == k
    ensures WithKey(s, key, k) == s
  {
    if |s| > 0 {
      WithKeyAll(s[1..], key, k);
      assert s == [s[0]] + s[1..];
    }
  }

  /** Under an order by key, being equivalent to `p` means having the key of `p`. */
  lemma {:induction false} EquivalentsByKey<T>(s: seq<T>, p: T, key: T -> string)
    ensures Equivalents(s, p, KeyLe(key)) == WithKey(s, key, key(p))
  {
    if |s| > 0 {
      EquivalentsByKey(s[1..], p, key);
      LessEqTotal(key(p), key(p));
      if LessEq(key(s[0]), key(p)) && LessEq(key(p), key(s[0])) {
        LessEqAntisymmetric(key(s[0]), key(p));
      }
    }
  }

  /** Sorting by key keeps, for every key, the elements with that key in their input order. */
  lemma SortByKeepsKeyOrder<T(!new)>(s: seq<T>, key: T -> string, k: string)
    ensures WithKey(SortBy(s, KeyLe(key)), key, k) == WithKey(s, key, k)
  {
    var r := SortBy(s, KeyLe(key));
    if i :| 0 <= i < |s| && key(s[i]) == k {
      KeyLeIsTotalPreorder(key);
      SortByStable(s, s[i], KeyLe(key));
      EquivalentsByKey(s, s[i], key);
      EquivalentsByKey(r, s[i], key);
    } else {
      WithKeyAbsent(s, key, k);
      SortByPermutes(s, KeyLe(key));
      forall j | 0 <= j < |r| ensures key(r[j]) != k {
        assert r[j] in multiset(s);
      }
      WithKeyAbsent(r, key, k);
    }
  }
}

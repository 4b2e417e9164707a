/** The split of the enriched pools into finished and open ones, and the ordering of each
    list by `sortOrder`. */
module Ordering {
  import opened Options
  import opened PoolTypes

  type SortKey = Option<int>

  function Key(p: EnrichedPool): SortKey {
    p.pool.sortOrder
  }

  /** Ascending order of sort keys: numbers ascending, a missing key after every number. */
  predicate KeyLe(a: SortKey, b: SortKey) {
    if a.None? then b.None? else b.None? || a.value <= b.value
  }

  lemma KeyLeIsTotalOrder(a: SortKey, b: SortKey, c: SortKey)
    ensures KeyLe(a, a)
    ensures KeyLe(a, b) || KeyLe(b, a)
    ensures KeyLe(a, b) && KeyLe(b, a) ==> a == b
    ensures KeyLe(a, b) && KeyLe(b, c) ==> KeyLe(a, c)
  {
  }

  ghost predicate Sorted(s: seq<EnrichedPool>) {
    forall i, j :: 0 <= i < j < |s| ==> KeyLe(Key(s[i]), Key(s[j]))
  }

  /** The pools of `s` whose sort key is `k`, in their order in `s`. */
  function WithKey(s: seq<EnrichedPool>, k: SortKey): (r: seq<EnrichedPool>)
    ensures forall x :: x in r ==> x in s && Key(x) == k
  {
    if |s| == 0 then []
    else (if Key(s[0]) == k then [s[0]] else []) + WithKey(s[1..], k)
  }

  // ---------------------------------------------------------------------------------
  // Partition

  /** The pools of `xs` whose finished flag is `finished`, in their order in `xs`. */
  function Select(xs: seq<EnrichedPool>, finished: bool): (r: seq<EnrichedPool>)
    ensures forall x :: x in r ==> x in xs && x.isFinished == finished
  {
    if |xs| == 0 then []
    else (if xs[0].isFinished == finished then [xs[0]] else []) + Select(xs[1..], finished)
  }

  /** `Select` keeps every copy of every pool with the wanted flag and nothing else. */
  lemma {:induction false} SelectCounts(xs: seq<EnrichedPool>, finished: bool, x: EnrichedPool)
    ensures multiset(Select(xs, finished))[x] == if x.isFinished == finished then multiset(xs)[x] else 0
  {
    if |xs| > 0 {
      assert xs == [xs[0]] + xs[1..];
      SelectCounts(xs[1..], finished, x);
    }
  }

  /** `Select` keeps the input order: the selection from a list made of two parts is the
      selection from the first part followed by the selection from the second. */
  lemma {:induction false} SelectKeepsOrder(a: seq<EnrichedPool>, b: seq<EnrichedPool>, finished: bool)
    ensures Select(a + b, finished) == Select(a, finished) + Select(b, finished)
  {
    if |a| == 0 {
      assert a + b == b;
    } else {
      assert (a + b)[1..] == a[1..] + b;
      SelectKeepsOrder(a[1..], b, finished);
    }
  }

  /** `partition(pools, p => p.isFinished)`: the finished pools and the open ones. Every
      pool lands in exactly one of the two lists. */
  function Partition(xs: seq<EnrichedPool>): (r: (seq<EnrichedPool>, seq<EnrichedPool>))
    ensures forall x :: x in r.0 ==> x.isFinished
    ensures forall x :: x in r.1 ==> !x.isFinished
    ensures multiset(r.0) + multiset(r.1) == multiset(xs)
  {
    var finished := Select(xs, true);
    var open := Select(xs, false);
    forall x ensures (multiset(finished) + multiset(open))[x] == multiset(xs)[x] {
      SelectCounts(xs, true, x);
      SelectCounts(xs, false, x);
    }
    assert multiset(finished) + multiset(open) == multiset(xs);
    (finished, open)
  }

  lemma {:induction false} WithKeyConcat(a: seq<EnrichedPool>, b: seq<EnrichedPool>, k: SortKey)
    ensures WithKey(a + b, k) == WithKey(a, k) + WithKey(b, k)
  {
    if |a| == 0 {
      assert a + b == b;
    } else {
      assert (a + b)[1..] == a[1..] + b;
      WithKeyConcat(a[1..], b, k);
    }
  }

  /** Taking the pools of one key and taking the pools of one flag can be done in either
      order. */
  lemma {:induction false} SelectCommutesWithKey(xs: seq<EnrichedPool>, finished: bool, k: SortKey)
    ensures WithKey(Select(xs, finished), k) == Select(WithKey(xs, k), finished)
  {
    if |xs| > 0 {
      var x, t := xs[0], xs[1..];
      var selHead := if x.isFinished == finished then [x] else [];
      var keyHead := if Key(x) == k then [x] else [];
      assert Select(xs, finished) == selHead + Select(t, finished);
      assert WithKey(xs, k) == keyHead + WithKey(t, k);
      WithKeyConcat(selHead, Select(t, finished), k);
      SelectKeepsOrder(keyHead, WithKey(t, k), finished);
      SelectCommutesWithKey(t, finished, k);
      assert WithKey(selHead, k) == Select(keyHead, finished) by {
        if x.isFinished == finished { WithKeyCons(x, [], k); }
        if Key(x) == k { assert keyHead == [x] + []; }
      }
    }
  }

  // ---------------------------------------------------------------------------------
  // Stable sort

  /** Puts `x` into `s` before the first pool whose key is not below its own. */
  function Insert(x: EnrichedPool, s: seq<EnrichedPool>): seq<EnrichedPool> {
    if |s| == 0 then [x]
    else if KeyLe(Key(x), Key(s[0])) then [x] + s
    else [s[0]] + Insert(x, s[1..])
  }

  /** Insertion adds `x` and loses nothing. */
  lemma {:induction false} InsertCounts(x: EnrichedPool, s: seq<EnrichedPool>)
    ensures multiset(Insert(x, s)) == multiset{x} + multiset(s)
  {
    if |s| > 0 && !KeyLe(Key(x), Key(s[0])) {
      InsertCounts(x, s[1..]);
      assert s == [s[0]] + s[1..];
    }
  }

  /** A pool at most every key of a sorted list can head it. */
  lemma ConsSorted(y: EnrichedPool, s: seq<EnrichedPool>)
    requires Sorted(s)
    requires forall z :: z in s ==> KeyLe(Key(y), Key(z))
    ensures Sorted([y] + s)
  {
  }

  /** Inserting into a sorted list gives a sorted list. */
  lemma {:induction false} InsertKeepsSorted(x: EnrichedPool, s: seq<EnrichedPool>)
    requires Sorted(s)
    ensures Sorted(Insert(x, s))
  {
    if |s| == 0 {
    } else if KeyLe(Key(x), Key(s[0])) {
      forall z | z in s ensures KeyLe(Key(x), Key(z)) {
        var j :| 0 <= j < |s| && s[j] == z;
        if j > 0 {
          KeyLeIsTotalOrder(Key(x), Key(s[0]), Key(z));
        }
      }
      ConsSorted(x, s);
    } else {
      var rest := Insert(x, s[1..]);
      SortedTail(s);
      InsertKeepsSorted(x, s[1..]);
      InsertCounts(x, s[1..]);
      forall z | z in rest ensures KeyLe(Key(s[0]), Key(z)) {
        assert z in multiset(rest);
        KeyLeIsTotalOrder(Key(x), Key(s[0]), Key(z));
        if z != x {
          assert z in multiset(s[1..]);
          var j :| 0 <= j < |s[1..]| && s[1..][j] == z;
          assert s[j + 1] == z;
        }
      }
      ConsSorted(s[0], rest);
    }
  }

  /** `orderBy(pools, ['sortOrder'])`: ascending by sort key, pools with equal keys in
      their input order. */
  function SortBySortOrder(xs: seq<EnrichedPool>): (r: seq<EnrichedPool>)
    ensures Sorted(r)
    ensures multiset(r) == multiset(xs)
    ensures forall k :: WithKey(r, k) == WithKey(xs, k)
  {
    if |xs| == 0 then []
    else
      assert xs == [xs[0]] + xs[1..];
      var rest := SortBySortOrder(xs[1..]);
      InsertKeepsSorted(xs[0], rest);
      InsertCounts(xs[0], rest);
      forall k ensures WithKey(Insert(xs[0], rest), k) == WithKey(xs, k) {
        InsertKeepsKeyOrder(xs[0], rest, k);
      }
      Insert(xs[0], rest)
  }

  /** Insertion only passes over pools with a strictly smaller key, so the pools of any
      one key keep their order, with `x` at the head of its own key. */
  lemma {:induction false} InsertKeepsKeyOrder(x: EnrichedPool, s: seq<EnrichedPool>, k: SortKey)
    ensures WithKey(Insert(x, s), k) == WithKey([x] + s, k)
  {
    if |s| == 0 {
    } else if KeyLe(Key(x), Key(s[0])) {
    } else {
      var t := Insert(x, s[1..]);
      assert Insert(x, s) == [s[0]] + t;
      assert s == [s[0]] + s[1..];
      calc {
        WithKey(Insert(x, s), k);
      == { WithKeyCons(s[0], t, k); }
        Only(s[0], k) + WithKey(t, k);
      == { InsertKeepsKeyOrder(x, s[1..], k); WithKeyCons(x, s[1..], k); }
        Only(s[0], k) + (Only(x, k) + WithKey(s[1..], k));
      == { KeyLeIsTotalOrder(Key(x), Key(s[0]), k); }
        Only(x, k) + (Only(s[0], k) + WithKey(s[1..], k));
      == { WithKeyCons(s[0], s[1..], k); }
        Only(x, k) + WithKey(s, k);
      == { WithKeyCons(x, s, k); }
        WithKey([x] + s, k);
      }
    }
  }

  /** `[y]` when `y` has key `k`, otherwise empty. */
  function Only(y: EnrichedPool, k: SortKey): seq<EnrichedPool> {
    if Key(y) == k then [y] else []
  }

  lemma WithKeyCons(y: EnrichedPool, s: seq<EnrichedPool>, k: SortKey)
    ensures WithKey([y] + s, k) == Only(y, k) + WithKey(s, k)
  {
  }

  lemma SortedTail(s: seq<EnrichedPool>)
    requires Sorted(s) && |s| > 0
    ensures Sorted(s[1..])
  {
  }

  lemma HeadIsLeast(s: seq<EnrichedPool>, z: EnrichedPool)
    requires Sorted(s) && z in s
    ensures KeyLe(Key(s[0]), Key(z))
  {
  }

  /** Being sorted and keeping every key's pools in input order determines the output:
      there is exactly one stable ascending ordering of a list. */
  lemma {:induction false} StableOrderIsUnique(a: seq<EnrichedPool>, b: seq<EnrichedPool>)
    requires Sorted(a) && Sorted(b)
    requires forall k :: WithKey(a, k) == WithKey(b, k)
    ensures a == b
    decreases |a|
  {
    if |a| == 0 {
      if |b| != 0 {
        assert b == [b[0]] + b[1..];
        WithKeyCons(b[0], b[1..], Key(b[0]));
        assert false;
      }
    } else if |b| == 0 {
      assert a == [a[0]] + a[1..];
      WithKeyCons(a[0], a[1..], Key(a[0]));
      assert false;
    } else {
      assert a == [a[0]] + a[1..];
      assert b == [b[0]] + b[1..];
      var ka, kb := Key(a[0]), Key(b[0]);
      WithKeyCons(a[0], a[1..], ka);
      WithKeyCons(b[0], b[1..], kb);
      assert a[0] in WithKey(b, ka);
      HeadIsLeast(b, a[0]);
      assert b[0] in WithKey(a, kb);
      HeadIsLeast(a, b[0]);
      KeyLeIsTotalOrder(ka, kb, kb);
      assert ka == kb;
      assert WithKey(a, ka) == WithKey(b, ka);
      assert WithKey(a, ka)[0] == a[0] && WithKey(b, kb)[0] == b[0];
      assert a[0] == b[0];
      forall k ensures WithKey(a[1..], k) == WithKey(b[1..], k) {
        WithKeyCons(a[0], a[1..], k);
        WithKeyCons(b[0], b[1..], k);
        assert WithKey(a, k) == WithKey(b, k);
        var head := if Key(a[0]) == k then [a[0]] else [];
        assert WithKey(a[1..], k) == WithKey(a, k)[|head|..];
        assert WithKey(b[1..], k) == WithKey(b, k)[|head|..];
      }
      SortedTail(a);
      SortedTail(b);
      StableOrderIsUnique(a[1..], b[1..]);
    }
  }

  /** Any sorted list that keeps every key's pools in input order is the one
      `SortBySortOrder` returns: the insertion sort stands for any stable ascending sort. */
  lemma SortBySortOrderIsTheStableSort(xs: seq<EnrichedPool>, out: seq<EnrichedPool>)
    requires Sorted(out)
    requires forall k :: WithKey(out, k) == WithKey(xs, k)
    ensures out == SortBySortOrder(xs)
  {
    StableOrderIsUnique(out, SortBySortOrder(xs));
  }
}

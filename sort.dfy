/**
 * The stable sort that opens `process_commands` (gfx-lib/src/renderer.rs),
 * `commands.sort_by(|a, b| a.key().cmp(&b.key()))`, and the runs of equal key
 * the batching loop walks afterwards. Stated for any element type and key
 * function, so that the proofs never look inside the key.
 */
module StableSort {

  ghost predicate SortedBy<T>(s: seq<T>, key: T -> int) {
    forall i, j :: 0 <= i < j < |s| ==> key(s[i]) <= key(s[j])
  }

  /** The elements of `s` whose key is `k`, in their order in `s`. */
  function Filter<T>(s: seq<T>, key: T -> int, k: int): (r: seq<T>)
    ensures |r| <= |s|
  {
    if s == [] then []
    else Filter(s[..|s| - 1], key, k) + (if key(s[|s| - 1]) == k then [s[|s| - 1]] else [])
  }

  lemma {:induction false} FilterAppend<T>(a: seq<T>, b: seq<T>, key: T -> int, k: int)
    ensures Filter(a + b, key, k) == Filter(a, key, k) + Filter(b, key, k)
  {
    if b == [] {
      assert a + b == a;
    } else {
      var b' := b[..|b| - 1];
      assert (a + b)[..|a + b| - 1] == a + b';
      assert (a + b)[|a + b| - 1] == b[|b| - 1];
      FilterAppend(a, b', key, k);
    }
  }

  /** Appending one element extends its own key's run by that element and no other run. */
  lemma FilterSnoc<T>(s: seq<T>, x: T, key: T -> int, k: int)
    ensures Filter(s + [x], key, k) == Filter(s, key, k) + (if key(x) == k then [x] else [])
  {
    assert (s + [x])[..|s|] == s;
  }

  /** No element of `s` has key `k`, so its run for `k` is empty. */
  lemma {:induction false} FilterAbsent<T>(s: seq<T>, key: T -> int, k: int)
    requires forall x :: x in s ==> key(x) != k
    ensures Filter(s, key, k) == []
  {
    if s != [] {
      FilterAbsent(s[..|s| - 1], key, k);
    }
  }

  /** Every element of `s` has key `k`, so its run for `k` is all of `s`. */
  lemma {:induction false} FilterAll<T>(s: seq<T>, key: T -> int, k: int)
    requires forall x :: x in s ==> key(x) == k
    ensures Filter(s, key, k) == s
  {
    if s != [] {
      FilterAll(s[..|s| - 1], key, k);
      assert s == s[..|s| - 1] + [s[|s| - 1]];
    }
  }

  /** `x` placed after every element whose key is not greater than its own. */
  function Insert<T>(s: seq<T>, x: T, key: T -> int): (r: seq<T>)
    ensures multiset(r) == multiset(s) + multiset{x}
  {
    if s == [] then [x]
    else if key(x) < key(s[0]) then [x] + s
    else
      assert s == [s[0]] + s[1..];
      [s[0]] + Insert(s[1..], x, key)
  }

  /** Insertion keeps a sorted list sorted. */
  lemma {:induction false} InsertSorted<T>(s: seq<T>, x: T, key: T -> int)
    requires SortedBy(s, key)
    ensures SortedBy(Insert(s, x, key), key)
  {
    if s != [] && key(x) >= key(s[0]) {
      var rest := Insert(s[1..], x, key);
      InsertSorted(s[1..], x, key);
      InsertAbove(s[1..], x, key, key(s[0]));
      ConsSorted(s[0], rest, key);
    }
  }

  /** Inserting a key no smaller than `lo` into a list whose keys are no smaller than `lo`. */
  lemma InsertAbove<T>(s: seq<T>, x: T, key: T -> int, lo: int)
    requires lo <= key(x) && forall i :: 0 <= i < |s| ==> lo <= key(s[i])
    ensures forall y :: y in Insert(s, x, key) ==> lo <= key(y)
  {
    forall y | y in Insert(s, x, key) ensures lo <= key(y) {
      assert y in multiset(Insert(s, x, key));
      assert y in multiset(s) || y == x;
    }
  }

  /** A sorted list behind an element no greater than any of its keys is sorted. */
  lemma ConsSorted<T>(a: T, rest: seq<T>, key: T -> int)
    requires SortedBy(rest, key)
    requires forall y :: y in rest ==> key(a) <= key(y)
    ensures SortedBy([a] + rest, key)
  {
    var r := [a] + rest;
    forall i, j | 0 <= i < j < |r| ensures key(r[i]) <= key(r[j]) {
      if i == 0 {
        assert r[j] in rest;
      } else {
        assert r[i] == rest[i - 1] && r[j] == rest[j - 1];
      }
    }
  }

  /** A stable sort by key: each element in input order is inserted after its equals. */
  function SortBy<T>(s: seq<T>, key: T -> int): (r: seq<T>)
    ensures multiset(r) == multiset(s)
  {
    if s == [] then []
    else
      assert s == s[..|s| - 1] + [s[|s| - 1]];
      Insert(SortBy(s[..|s| - 1], key), s[|s| - 1], key)
  }

  /** The result of the sort is ordered by key. */
  lemma {:induction false} SortSorted<T>(s: seq<T>, key: T -> int)
    ensures SortedBy(SortBy(s, key), key)
  {
    if s != [] {
      SortSorted(s[..|s| - 1], key);
      InsertSorted(SortBy(s[..|s| - 1], key), s[|s| - 1], key);
    }
  }

  /** Insertion in front of a smaller-keyed list: only `x`'s own run changes, by `x` alone. */
  lemma InsertFilterFront<T>(s: seq<T>, x: T, key: T -> int, k: int)
    requires SortedBy(s, key) && s != [] && key(x) < key(s[0])
    ensures Filter([x] + s, key, k) == Filter(s, key, k) + (if key(x) == k then [x] else [])
  {
    FilterAppend([x], s, key, k);
    assert Filter([x], key, k) == (if key(x) == k then [x] else []) by {
      assert [x][..0] == [];
    }
    if key(x) == k {
      forall y | y in s ensures key(y) != k {
        var j :| 0 <= j < |s| && s[j] == y;
        assert key(s[0]) <= key(s[j]);
      }
      FilterAbsent(s, key, k);
    }
  }

  /** Inserting into a sorted list keeps every run in order and puts `x` at the end of its own. */
  lemma {:induction false} InsertFilter<T>(s: seq<T>, x: T, key: T -> int, k: int)
    requires SortedBy(s, key)
    ensures Filter(Insert(s, x, key), key, k) == Filter(s, key, k) + (if key(x) == k then [x] else [])
  {
    if s == [] {
      assert Insert(s, x, key) == [x];
      assert [x][..0] == [];
    } else if key(x) < key(s[0]) {
      InsertFilterFront(s, x, key, k);
    } else {
      InsertFilter(s[1..], x, key, k);
      InsertFilterBehind(s, x, key, k);
    }
  }

  /** Insertion behind the first element: that element's contribution to each run is unchanged. */
  lemma InsertFilterBehind<T>(s: seq<T>, x: T, key: T -> int, k: int)
    requires s != [] && key(x) >= key(s[0])
    requires Filter(Insert(s[1..], x, key), key, k) == Filter(s[1..], key, k) + (if key(x) == k then [x] else [])
    ensures Filter(Insert(s, x, key), key, k) == Filter(s, key, k) + (if key(x) == k then [x] else [])
  {
    var head, tail := [s[0]], s[1..];
    InsertBehind(s, x, key);
    FilterAppend(head, Insert(tail, x, key), key, k);
    FilterAppend(head, tail, key, k);
  }

  lemma InsertBehind<T>(s: seq<T>, x: T, key: T -> int)
    requires s != [] && key(x) >= key(s[0])
    ensures s == [s[0]] + s[1..]
    ensures Insert(s, x, key) == [s[0]] + Insert(s[1..], x, key)
  {
  }

  /**
   * The sort is stable: for every key, the elements with that key appear in
   * the sorted list in their input order.
   */
  lemma {:induction false} SortFilter<T>(s: seq<T>, key: T -> int, k: int)
    ensures Filter(SortBy(s, key), key, k) == Filter(s, key, k)
  {
    if s != [] {
      var init, last := s[..|s| - 1], s[|s| - 1];
      SortFilter(init, key, k);
      SortSorted(init, key);
      InsertFilter(SortBy(init, key), last, key, k);
    }
  }

  // ---------------------------------------------------------------------------
  // Runs of equal key

  /** The keys of the maximal runs of equal key in `s`, one per run, in order. */
  function RunKeys<T>(s: seq<T>, key: T -> int): (r: seq<int>)
    ensures |r| <= |s|
    ensures s != [] ==> r != [] && r[|r| - 1] == key(s[|s| - 1])
  {
    if s == [] then []
    else
      var init := s[..|s| - 1];
      if init != [] && key(init[|init| - 1]) == key(s[|s| - 1]) then RunKeys(init, key)
      else RunKeys(init, key) + [key(s[|s| - 1])]
  }

  /** The keys that occur in `s`. */
  ghost function KeySet<T>(s: seq<T>, key: T -> int): set<int> {
    if s == [] then {} else KeySet(s[..|s| - 1], key) + {key(s[|s| - 1])}
  }

  /** A key occurs in `s` exactly when some element of `s` has it. */
  lemma {:induction false} KeySetMembers<T>(s: seq<T>, key: T -> int)
    ensures forall k :: k in KeySet(s, key) <==> exists x :: x in s && key(x) == k
  {
    if s != [] {
      var init := s[..|s| - 1];
      KeySetMembers(init, key);
      assert s == init + [s[|s| - 1]];
    }
  }

  /** Sorting keeps the keys that occur. */
  lemma KeySetSortBy<T>(s: seq<T>, key: T -> int)
    ensures KeySet(SortBy(s, key), key) == KeySet(s, key)
  {
    var r := SortBy(s, key);
    KeySetMembers(s, key);
    KeySetMembers(r, key);
    forall k | k in KeySet(r, key) ensures k in KeySet(s, key) {
      var x :| x in r && key(x) == k;
      assert x in multiset(r);
    }
    forall k | k in KeySet(s, key) ensures k in KeySet(r, key) {
      var x :| x in s && key(x) == k;
      assert x in multiset(s);
    }
  }

  ghost predicate StrictlyIncreasing(keys: seq<int>) {
    forall i, j :: 0 <= i < j < |keys| ==> keys[i] < keys[j]
  }

  /** One more element either extends the last run or opens a new one. */
  lemma RunKeysSnoc<T>(s: seq<T>, x: T, key: T -> int)
    ensures RunKeys(s + [x], key) ==
      if s != [] && key(s[|s| - 1]) == key(x) then RunKeys(s, key) else RunKeys(s, key) + [key(x)]
  {
    assert (s + [x])[..|s|] == s;
  }

  /**
   * The run keys of the first `i` elements of `s`, counted by position
   * rather than by prefix: the form a left-to-right loop over `s` keeps.
   */
  function RunKeysUpTo<T>(s: seq<T>, key: T -> int, i: nat): (r: seq<int>)
    requires i <= |s|
    ensures i > 0 ==> r != [] && r[|r| - 1] == key(s[i - 1])
  {
    if i == 0 then []
    else if i > 1 && key(s[i - 2]) == key(s[i - 1]) then RunKeysUpTo(s, key, i - 1)
    else RunKeysUpTo(s, key, i - 1) + [key(s[i - 1])]
  }

  /**
   * One more element, seen from a walk that has closed the runs `done`
   * and holds the run of `s[i - 1]` open: that run is closed when the new
   * key differs, and the new key's run is the open one.
   */
  lemma RunKeysUpToStep<T>(s: seq<T>, key: T -> int, i: nat, done: seq<int>)
    requires i < |s|
    requires i == 0 ==> done == []
    requires i > 0 ==> RunKeysUpTo(s, key, i) == done + [key(s[i - 1])]
    ensures RunKeysUpTo(s, key, i + 1)
         == (if i > 0 && key(s[i - 1]) != key(s[i]) then done + [key(s[i - 1])] else done) + [key(s[i])]
  {
  }

  /** Counting by position gives the run keys of the prefix. */
  lemma {:induction false} RunKeysUpToPrefix<T>(s: seq<T>, key: T -> int, i: nat)
    requires i <= |s|
    ensures RunKeysUpTo(s, key, i) == RunKeys(s[..i], key)
  {
    if i > 0 {
      RunKeysUpToPrefix(s, key, i - 1);
      assert s[..i] == s[..i - 1] + [s[i - 1]];
      RunKeysSnoc(s[..i - 1], s[i - 1], key);
    }
  }

  /** One more element adds its key to the keys that occur. */
  lemma KeySetSnoc<T>(s: seq<T>, x: T, key: T -> int)
    ensures KeySet(s + [x], key) == KeySet(s, key) + {key(x)}
  {
    assert (s + [x])[..|s|] == s;
  }

  /** The run keys name exactly the keys that occur. */
  lemma {:induction false} RunKeysCover<T>(s: seq<T>, key: T -> int)
    ensures forall k :: k in RunKeys(s, key) <==> k in KeySet(s, key)
  {
    if s != [] {
      var init := s[..|s| - 1];
      RunKeysCover(init, key);
    }
  }

  /** On a sorted list the run keys are strictly ascending, hence free of duplicates. */
  lemma {:induction false} RunKeysIncreasing<T>(s: seq<T>, key: T -> int)
    requires SortedBy(s, key)
    ensures StrictlyIncreasing(RunKeys(s, key))
  {
    if s != [] {
      var init := s[..|s| - 1];
      RunKeysIncreasing(init, key);
      RunKeysCover(init, key);
      KeySetMembers(init, key);
      var keys := RunKeys(init, key);
      if !(init != [] && key(init[|init| - 1]) == key(s[|s| - 1])) {
        forall i | 0 <= i < |keys| ensures keys[i] < key(s[|s| - 1]) {
          assert keys[i] in KeySet(init, key);
          var y :| y in init && key(y) == keys[i];
          var j :| 0 <= j < |init| && init[j] == y;
          assert key(init[j]) <= key(init[|init| - 1]);
        }
      }
    }
  }

  /** In a sorted list, an element whose key differs from its predecessor's starts that key's only run. */
  lemma RunStartFilter<T>(s: seq<T>, key: T -> int, i: nat)
    requires SortedBy(s, key) && i < |s|
    requires i == 0 || key(s[i - 1]) != key(s[i])
    ensures key(s[i]) !in KeySet(s[..i], key)
    ensures Filter(s[..i], key, key(s[i])) == []
  {
    forall y | y in s[..i] ensures key(y) != key(s[i]) {
      var j :| 0 <= j < i && s[j] == y;
      assert key(s[j]) <= key(s[i - 1]);
    }
    FilterAbsent(s[..i], key, key(s[i]));
    KeySetMembers(s[..i], key);
  }
}

/** Operations on JavaScript arrays, modelled on sequences: `filter`, counting, `find`,
    `flatMap`, de-duplication through a `Set`, the toggle idiom of the filter panels, and the
    stable `sort` by a numeric key (ES2019 requires `Array.prototype.sort` to be stable). */
module Seqs {
  import opened Outcomes

  // ---------------------------------------------------------------------------------------
  // filter, count, find

  /** `s.filter(p)`. */
  function Filter<T(!new)>(s: seq<T>, p: T -> bool): (r: seq<T>)
    ensures |r| <= |s|
    ensures forall x :: x in r <==> x in s && p(x)
    ensures forall i :: 0 <= i < |r| ==> p(r[i])
  {
    if |s| == 0 then []
    else Filter(s[..|s| - 1], p) + (if p(s[|s| - 1]) then [s[|s| - 1]] else [])
  }

  /** The last element kept by a filter is the last element of the input that passes. */
  lemma {:induction false} FilterLast<T(!new)>(s: seq<T>, p: T -> bool) returns (j: nat)
    requires |Filter(s, p)| > 0
    ensures j < |s| && s[j] == Filter(s, p)[|Filter(s, p)| - 1]
    ensures forall k :: j < k < |s| ==> !p(s[k])
    decreases |s|
  {
    var init := s[..|s| - 1];
    var last := s[|s| - 1];
    var f := Filter(init, p);
    if !p(last) {
      assert Filter(s, p) == f + [];
      assert f + [] == f;
      j := FilterLast(init, p);
      assert s[j] == init[j];
      forall k | j < k < |s| ensures !p(s[k]) {
        if k < |init| { assert s[k] == init[k]; }
      }
    } else {
      assert Filter(s, p) == f + [last];
      assert (f + [last])[|f|] == last;
      j := |s| - 1;
    }
  }

  /** Each element the filter keeps comes from a position of the input whose earlier kept
      elements are exactly the ones kept before it. */
  lemma {:induction false} FilterPosition<T(!new)>(s: seq<T>, p: T -> bool, k: nat) returns (i: nat)
    requires k < |Filter(s, p)|
    ensures i < |s| && s[i] == Filter(s, p)[k] && p(s[i])
    ensures Filter(s[..i], p) == Filter(s, p)[..k]
    decreases |s|
  {
    var init := s[..|s| - 1];
    var f := Filter(init, p);
    if k < |f| {
      i := FilterPosition(init, p, k);
      assert s[..i] == init[..i];
      assert Filter(s, p)[..k] == f[..k];
    } else {
      i := |s| - 1;
      assert Filter(s, p) == f + [s[i]];
    }
  }

  lemma {:induction false} FilterAppend<T(!new)>(a: seq<T>, b: seq<T>, p: T -> bool)
    ensures Filter(a + b, p) == Filter(a, p) + Filter(b, p)
    decreases |b|
  {
    if |b| > 0 {
      assert (a + b)[..|a + b| - 1] == a + b[..|b| - 1];
      FilterAppend(a, b[..|b| - 1], p);
    } else {
      assert a + b == a;
    }
  }

  /** A non-empty sequence is its front followed by its last element. */
  lemma {:induction false} InitLast<T>(s: seq<T>)
    requires |s| > 0
    ensures s == s[..|s| - 1] + [s[|s| - 1]]
  {
    assert s[..|s| - 1] + [s[|s| - 1]] == s[..|s| - 1] + s[|s| - 1..];
  }

  /** A step that keeps the last element after a front kept whole gives back the whole. */
  lemma {:induction false} KeepLast<T>(s: seq<T>, front: seq<T>, r: seq<T>, taken: bool)
    requires |s| > 0 && front == s[..|s| - 1] && taken
    requires r == front + (if taken then [s[|s| - 1]] else [])
    ensures r == s
  {
    InitLast(s);
  }

  /** Appending to the part after a fixed prefix appends to the whole. */
  lemma {:induction false} AppendStep<T>(pre: seq<T>, done: seq<T>, next: seq<T>, x: T, taken: bool)
    requires next == done + (if taken then [x] else [])
    ensures taken ==> (pre + done) + [x] == pre + next
    ensures !taken ==> pre + done == pre + next
  {
    if taken {
      assert (pre + done) + [x] == pre + (done + [x]);
    } else {
      assert done + [] == done;
    }
  }

  /** A filter that keeps everything is the identity. */
  lemma {:induction false} FilterAll<T(!new)>(s: seq<T>, p: T -> bool)
    requires forall i :: 0 <= i < |s| ==> p(s[i])
    ensures Filter(s, p) == s
    decreases |s|
  {
    if |s| > 0 {
      var init := s[..|s| - 1];
      forall i | 0 <= i < |init| ensures p(init[i]) {
        assert init[i] == s[i];
      }
      FilterAll(init, p);
      assert p(s[|s| - 1]);
      assert Filter(s, p) == Filter(init, p) + [s[|s| - 1]];
      assert s == init + [s[|s| - 1]];
    }
  }

  /** A filter that keeps nothing is empty. */
  lemma {:induction false} FilterNone<T(!new)>(s: seq<T>, p: T -> bool)
    requires forall i :: 0 <= i < |s| ==> !p(s[i])
    ensures Filter(s, p) == []
    decreases |s|
  {
    if |s| > 0 {
      var init := s[..|s| - 1];
      forall i | 0 <= i < |init| ensures !p(init[i]) {
        assert init[i] == s[i];
      }
      FilterNone(init, p);
      assert !p(s[|s| - 1]);
      assert Filter(s, p) == Filter(init, p) + [];
    }
  }

  /** A filter that keeps exactly a prefix yields that prefix. */
  lemma {:induction false} FilterPrefix<T(!new)>(s: seq<T>, k: nat, p: T -> bool)
    requires k <= |s|
    requires forall i :: 0 <= i < k ==> p(s[i])
    requires forall i :: k <= i < |s| ==> !p(s[i])
    ensures Filter(s, p) == s[..k]
    decreases |s|
  {
    if |s| == k {
      FilterAll(s, p);
      assert s[..k] == s;
    } else {
      var init := s[..|s| - 1];
      assert Filter(s, p) == Filter(init, p) + [];
      FilterPrefix(init, k, p);
      assert init[..k] == s[..k];
    }
  }

  /** The number of elements that satisfy `p`. */
  function Count<T(!new)>(s: seq<T>, p: T -> bool): (n: nat)
    ensures n <= |s|
    ensures n == 0 <==> forall i :: 0 <= i < |s| ==> !p(s[i])
    ensures n == |Filter(s, p)|
  {
    if |s| == 0 then 0
    else Count(s[..|s| - 1], p) + (if p(s[|s| - 1]) then 1 else 0)
  }

  /** An element that fails `p` leaves the count below the length. */
  lemma {:induction false} CountMisses<T(!new)>(s: seq<T>, p: T -> bool, i: nat)
    requires i < |s| && !p(s[i])
    ensures Count(s, p) < |s|
    decreases |s|
  {
    var init := s[..|s| - 1];
    assert Count(s, p) == Count(init, p) + (if p(s[|s| - 1]) then 1 else 0);
    if i < |init| {
      assert init[i] == s[i];
      CountMisses(init, p, i);
    } else {
      assert i == |s| - 1;
      assert Count(init, p) <= |init|;
    }
  }

  /** Every element is counted exactly when every element satisfies `p`. */
  lemma {:induction false} CountAll<T(!new)>(s: seq<T>, p: T -> bool)
    ensures Count(s, p) == |s| <==> forall i :: 0 <= i < |s| ==> p(s[i])
  {
    if forall i :: 0 <= i < |s| ==> p(s[i]) {
      FilterAll(s, p);
    } else {
      var i :| 0 <= i < |s| && !p(s[i]);
      CountMisses(s, p, i);
    }
  }

  /** Counting one more element of a prefix. */
  lemma {:induction false} CountPrefix<T(!new)>(s: seq<T>, j: nat, p: T -> bool)
    requires j < |s|
    ensures Count(s[..j + 1], p) == Count(s[..j], p) + (if p(s[j]) then 1 else 0)
  {
    assert s[..j + 1][..j] == s[..j];
  }

  /** `s.find(p)`: the first element that satisfies `p`, or `undefined`. */
  function Find<T>(s: seq<T>, p: T -> bool): (r: Option<T>)
    ensures r.None? <==> forall i :: 0 <= i < |s| ==> !p(s[i])
    ensures r.Some? ==> exists i :: 0 <= i < |s| && s[i] == r.value && p(s[i])
                                    && forall j :: 0 <= j < i ==> !p(s[j])
  {
    if |s| == 0 then None
    else if p(s[0]) then Some(s[0])
    else
      var r := Find(s[1..], p);
      assert forall j :: 0 < j < |s| ==> s[j] == s[1..][j - 1];
      r
  }

  /** `s.findIndex(p)`, with `None` for `-1`. */
  function FindIndex<T>(s: seq<T>, p: T -> bool): (r: Option<nat>)
    ensures r.None? <==> forall j :: 0 <= j < |s| ==> !p(s[j])
    ensures r.Some? ==> r.value < |s| && p(s[r.value]) && forall j :: 0 <= j < r.value ==> !p(s[j])
  {
    if |s| == 0 then None
    else if p(s[0]) then Some(0)
    else
      var rest := s[1..];
      assert forall j :: 1 <= j < |s| ==> s[j] == rest[j - 1];
      match FindIndex(rest, p)
      case None => None
      case Some(i) => Some(i + 1)
  }

  /** Past an element that fails, the search goes on one position further. */
  lemma {:induction false} FindIndexTail<T>(s: seq<T>, p: T -> bool)
    requires |s| > 0 && !p(s[0])
    ensures FindIndex(s, p).None? <==> FindIndex(s[1..], p).None?
    ensures FindIndex(s, p).Some? ==> FindIndex(s, p).value == FindIndex(s[1..], p).value + 1
  {
    var rest := s[1..];
    assert forall j :: 1 <= j < |s| ==> s[j] == rest[j - 1];
  }

  /** The position of the first element that satisfies `p` is what the search finds. */
  lemma {:induction false} FindIndexAt<T>(s: seq<T>, p: T -> bool, k: nat)
    requires k < |s| && p(s[k]) && forall j :: 0 <= j < k ==> !p(s[j])
    ensures FindIndex(s, p) == Some(k)
  {
    var r := FindIndex(s, p);
    assert r.Some?;
  }

  /** `s.map(f)`. */
  function Map<A, B>(s: seq<A>, f: A -> B): (r: seq<B>)
    ensures |r| == |s|
    ensures forall i :: 0 <= i < |s| ==> r[i] == f(s[i])
  {
    seq(|s|, i requires 0 <= i < |s| => f(s[i]))
  }

  lemma {:induction false} MapAppend<A, B>(a: seq<A>, b: seq<A>, f: A -> B)
    ensures Map(a + b, f) == Map(a, f) + Map(b, f)
  {
    assert forall i :: 0 <= i < |a| + |b| ==> (a + b)[i] == if i < |a| then a[i] else b[i - |a|];
  }

  /** One more element maps to one more result. */
  lemma {:induction false} MapSnoc<A, B>(s: seq<A>, i: nat, f: A -> B)
    requires i < |s|
    ensures Map(s[..i + 1], f) == Map(s[..i], f) + [f(s[i])]
  {
    assert Map(s[..i + 1], f)[..i] == Map(s[..i], f);
  }

  /** The first element of a sequence (`s[0]`, `undefined` for an empty array). */
  function First<T>(s: seq<T>): (r: Option<T>)
    ensures r.None? <==> |s| == 0
    ensures r.Some? ==> r.value == s[0]
  {
    if |s| == 0 then None else Some(s[0])
  }

  /** The last element of a sequence (`s[s.length - 1]`). */
  function Last<T>(s: seq<T>): (r: Option<T>)
    ensures r.None? <==> |s| == 0
    ensures r.Some? ==> r.value == s[|s| - 1]
  {
    if |s| == 0 then None else Some(s[|s| - 1])
  }

  // ---------------------------------------------------------------------------------------
  // flatMap and de-duplication

  /** `ss.flat()`, the concatenation of the inner sequences in order. */
  function Flatten<T(!new)>(ss: seq<seq<T>>): (r: seq<T>)
    ensures forall x :: x in r <==> exists i :: 0 <= i < |ss| && x in ss[i]
  {
    if |ss| == 0 then []
    else
      var r := Flatten(ss[..|ss| - 1]) + ss[|ss| - 1];
      assert forall i :: 0 <= i < |ss| - 1 ==> ss[..|ss| - 1][i] == ss[i];
      r
  }

  /** `s.flatMap(f)`, equivalently pushing each element's results in turn. */
  function FlatMap<A, B>(s: seq<A>, f: A -> seq<B>): (r: seq<B>)
    ensures |s| == 0 ==> r == []
  {
    if |s| == 0 then [] else FlatMap(s[..|s| - 1], f) + f(s[|s| - 1])
  }

  /** One more element flat-maps to its own results appended. */
  lemma {:induction false} FlatMapSnoc<A, B>(s: seq<A>, i: nat, f: A -> seq<B>)
    requires i < |s|
    ensures FlatMap(s[..i + 1], f) == FlatMap(s[..i], f) + f(s[i])
  {
    assert s[..i + 1][..i] == s[..i];
  }

  /** A common prefix does not make different tails equal. */
  lemma {:induction false} PrefixCancel<T>(a: seq<T>, x: seq<T>, y: seq<T>)
    requires x != y
    ensures a + x != a + y
  {
    assert (a + x)[|a|..] == x && (a + y)[|a|..] == y;
  }

  /** Appending to a sequence already extended. */
  lemma {:induction false} AppendAssoc<T>(a: seq<T>, b: seq<T>, c: seq<T>)
    ensures (a + b) + c == a + (b + c)
  {
  }

  /** An element of a flatMap comes from one of the inputs, and every input's results are in it. */
  lemma {:induction false} FlatMapMembers<A, B>(s: seq<A>, f: A -> seq<B>, x: B)
    ensures x in FlatMap(s, f) <==> exists i :: 0 <= i < |s| && x in f(s[i])
    decreases |s|
  {
    if |s| > 0 {
      var init := s[..|s| - 1];
      FlatMapMembers(init, f, x);
      if x in FlatMap(s, f) && x !in f(s[|s| - 1]) {
        var i :| 0 <= i < |init| && x in f(init[i]);
        assert init[i] == s[i];
      }
      if exists i :: 0 <= i < |s| && x in f(s[i]) {
        var i :| 0 <= i < |s| && x in f(s[i]);
        if i < |init| {
          assert init[i] == s[i];
        }
      }
    }
  }

  ghost predicate NoDuplicates<T>(s: seq<T>) {
    forall i, j :: 0 <= i < j < |s| ==> s[i] != s[j]
  }

  /** `[...new Set(s)]`: each distinct element once, at the place of its first occurrence. */
  function Dedup<T(==,!new)>(s: seq<T>): (r: seq<T>)
    ensures |r| <= |s|
    ensures NoDuplicates(r)
    ensures forall x :: x in r <==> x in s
  {
    if |s| == 0 then []
    else
      var d := Dedup(s[..|s| - 1]);
      assert forall x :: x in s <==> x in s[..|s| - 1] || x == s[|s| - 1];
      if s[|s| - 1] in d then d else d + [s[|s| - 1]]
  }

  /** The position of the first occurrence of `x` in `s`. */
  function IndexOf<T(==)>(s: seq<T>, x: T): (k: nat)
    requires x in s
    ensures k < |s| && s[k] == x && x !in s[..k]
  {
    if s[0] == x then 0
    else
      var k := IndexOf(s[1..], x) + 1;
      assert s[..k] == [s[0]] + s[1..][..k - 1];
      k
  }

  /** Only one position holds the first occurrence. */
  lemma {:induction false} IndexOfUnique<T>(s: seq<T>, x: T, k: nat)
    requires k < |s| && s[k] == x && x !in s[..k]
    ensures IndexOf(s, x) == k
  {
    var m := IndexOf(s, x);
  }

  /** `[...new Set(s)]` keeps each element at the place of its first occurrence: the
      elements come out in the order in which they first occur in `s`. */
  lemma {:induction false} DedupFirstOccurrenceOrder<T(!new)>(s: seq<T>)
    ensures forall i, j :: 0 <= i < j < |Dedup(s)| ==> IndexOf(s, Dedup(s)[i]) < IndexOf(s, Dedup(s)[j])
    decreases |s|
  {
    if |s| > 0 {
      var init := s[..|s| - 1];
      var x := s[|s| - 1];
      var d := Dedup(init);
      DedupFirstOccurrenceOrder(init);
      assert s == init + [x];
      forall y | y in init ensures IndexOf(s, y) == IndexOf(init, y) {
        var k := IndexOf(init, y);
        assert s[..k] == init[..k];
        IndexOfUnique(s, y, k);
      }
      if x !in d {
        assert x !in s[..|s| - 1];
        IndexOfUnique(s, x, |s| - 1);
        var r := d + [x];
        forall i, j | 0 <= i < j < |r| ensures IndexOf(s, r[i]) < IndexOf(s, r[j]) {
          assert r[i] == d[i] && r[i] in init;
          if j < |d| {
            assert r[j] == d[j] && r[j] in init;
          }
        }
      } else {
        forall i, j | 0 <= i < j < |d| ensures IndexOf(s, d[i]) < IndexOf(s, d[j]) {
          assert d[i] in init && d[j] in init;
        }
      }
    }
  }

  /** Appending an element not yet listed keeps the elements distinct. */
  lemma {:induction false} AppendFreshDistinct<T>(s: seq<T>, x: T)
    requires NoDuplicates(s) && x !in s
    ensures NoDuplicates(s + [x])
  {
    var r := s + [x];
    forall i, j | 0 <= i < j < |r| ensures r[i] != r[j] {
      if j == |s| {
        assert r[i] == s[i];
      } else {
        assert r[i] == s[i] && r[j] == s[j];
      }
    }
  }

  /** A sequence without duplicates is its own de-duplication. */
  lemma {:induction false} DedupOfDistinct<T(!new)>(s: seq<T>)
    requires NoDuplicates(s)
    ensures Dedup(s) == s
    decreases |s|
  {
    if |s| > 0 {
      var init := s[..|s| - 1];
      DedupOfDistinct(init);
      assert s[|s| - 1] !in init;
      assert init + [s[|s| - 1]] == s;
    }
  }

  // ---------------------------------------------------------------------------------------
  // The toggle idiom: `prev.includes(x) ? prev.filter(p => p !== x) : [...prev, x]`

  /** `s.filter(y => y !== x)`. */
  function Remove<T(==,!new)>(s: seq<T>, x: T): (r: seq<T>)
    ensures forall y :: y in r <==> y in s && y != x
    ensures x !in s ==> r == s
  {
    if |s| == 0 then []
    else
      var r := Remove(s[..|s| - 1], x) + (if s[|s| - 1] != x then [s[|s| - 1]] else []);
      assert s == s[..|s| - 1] + [s[|s| - 1]];
      r
  }

  function Toggle<T(==,!new)>(s: seq<T>, x: T): seq<T> {
    if x in s then Remove(s, x) else s + [x]
  }

  /** Removing distributes over concatenation, so the entries kept stay in their order. */
  lemma {:induction false} RemoveAppend<T(!new)>(a: seq<T>, b: seq<T>, x: T)
    ensures Remove(a + b, x) == Remove(a, x) + Remove(b, x)
    decreases |b|
  {
    if |b| == 0 {
      assert a + b == a;
    } else {
      assert (a + b)[..|a + b| - 1] == a + b[..|b| - 1];
      RemoveAppend(a, b[..|b| - 1], x);
    }
  }

  /** Removing an entry keeps a list free of duplicates. */
  lemma {:induction false} RemoveKeepsDistinct<T(!new)>(s: seq<T>, x: T)
    requires NoDuplicates(s)
    ensures NoDuplicates(Remove(s, x))
    decreases |s|
  {
    if |s| > 0 {
      var init := s[..|s| - 1];
      assert NoDuplicates(init);
      RemoveKeepsDistinct(init, x);
      assert s[|s| - 1] !in init;
    }
  }

  /** Toggling keeps a list free of duplicates. */
  lemma {:induction false} ToggleKeepsDistinct<T(!new)>(s: seq<T>, x: T)
    requires NoDuplicates(s)
    ensures NoDuplicates(Toggle(s, x))
  {
    if x in s {
      RemoveKeepsDistinct(s, x);
    }
  }

  /** Toggling an entry flips whether it is selected and leaves every other entry as it was. */
  lemma {:induction false} ToggleFlips<T(!new)>(s: seq<T>, x: T)
    ensures x in Toggle(s, x) <==> x !in s
    ensures forall y :: y != x ==> (y in Toggle(s, x) <==> y in s)
  {
  }

  /** Selecting an entry that was not selected and then deselecting it restores the list. */
  lemma {:induction false} ToggleTwice<T(!new)>(s: seq<T>, x: T)
    requires x !in s
    ensures Toggle(Toggle(s, x), x) == s
  {
    var t := s + [x];
    assert x in t;
    assert t[..|t| - 1] == s;
  }

  // ---------------------------------------------------------------------------------------
  // Stable sort by a numeric key, largest key first
  // (`s.sort((a, b) => key(b) - key(a))`)

  predicate SortedDesc<T>(s: seq<T>, key: T -> int) {
    forall i, j :: 0 <= i < j < |s| ==> key(s[i]) >= key(s[j])
  }

  /** The elements whose key is `k`, in their order in `s`. */
  function WithKey<T>(s: seq<T>, key: T -> int, k: int): seq<T> {
    if |s| == 0 then []
    else WithKey(s[..|s| - 1], key, k) + (if key(s[|s| - 1]) == k then [s[|s| - 1]] else [])
  }

  lemma {:induction false} WithKeyAppend<T>(a: seq<T>, b: seq<T>, key: T -> int, k: int)
    ensures WithKey(a + b, key, k) == WithKey(a, key, k) + WithKey(b, key, k)
    decreases |b|
  {
    if |b| > 0 {
      assert (a + b)[..|a + b| - 1] == a + b[..|b| - 1];
      WithKeyAppend(a, b[..|b| - 1], key, k);
    } else {
      assert a + b == a;
    }
  }

  lemma {:induction false} WithKeyNone<T>(s: seq<T>, key: T -> int, k: int)
    requires forall i :: 0 <= i < |s| ==> key(s[i]) != k
    ensures WithKey(s, key, k) == []
    decreases |s|
  {
    if |s| > 0 {
      WithKeyNone(s[..|s| - 1], key, k);
    }
  }

  /** Inserts `x` after every leading element whose key is at least `key(x)`. */
  function InsertDesc<T>(x: T, s: seq<T>, key: T -> int): (r: seq<T>)
    ensures |r| == |s| + 1
    ensures multiset(r) == multiset(s) + multiset{x}
  {
    if |s| == 0 then [x]
    else if key(s[0]) >= key(x) then
      assert s == [s[0]] + s[1..];
      [s[0]] + InsertDesc(x, s[1..], key)
    else [x] + s
  }

  lemma {:induction false} InsertDescSorted<T>(x: T, s: seq<T>, key: T -> int)
    requires SortedDesc(s, key)
    ensures SortedDesc(InsertDesc(x, s, key), key)
    decreases |s|
  {
    if |s| > 0 && key(s[0]) >= key(x) {
      var rest := InsertDesc(x, s[1..], key);
      InsertDescSorted(x, s[1..], key);
      forall j | 0 <= j < |rest| ensures key(s[0]) >= key(rest[j]) {
        assert rest[j] in multiset(s[1..]) + multiset{x};
        if rest[j] != x {
          assert rest[j] in s[1..];
        }
      }
    }
  }

  /** The tail of a sorted sequence is sorted, and no key in it exceeds the head's. */
  lemma {:induction false} SortedTail<T>(s: seq<T>, key: T -> int)
    requires |s| > 0 && SortedDesc(s, key)
    ensures SortedDesc(s[1..], key)
    ensures forall i :: 0 <= i < |s| ==> key(s[i]) <= key(s[0])
  {
    var t := s[1..];
    forall i, j | 0 <= i < j < |t| ensures key(t[i]) >= key(t[j]) {
      assert t[i] == s[i + 1] && t[j] == s[j + 1];
    }
  }

  lemma {:induction false} WithKeySingle<T>(x: T, key: T -> int, k: int)
    ensures WithKey([x], key, k) == if key(x) == k then [x] else []
  {
    assert [x][..0] == [];
  }

  /** The step of `InsertDescWithKey` where `x` goes past the head. */
  lemma {:induction false} InsertDescWithKeyPast<T>(x: T, s: seq<T>, key: T -> int, k: int)
    requires |s| > 0 && key(s[0]) >= key(x)
    requires WithKey(InsertDesc(x, s[1..], key), key, k) == WithKey(s[1..], key, k) + (if key(x) == k then [x] else [])
    ensures WithKey(InsertDesc(x, s, key), key, k) == WithKey(s, key, k) + (if key(x) == k then [x] else [])
  {
    var rest := InsertDesc(x, s[1..], key);
    var head := [s[0]];
    var t := if key(x) == k then [x] else [];
    assert InsertDesc(x, s, key) == head + rest;
    assert s == head + s[1..];
    WithKeyAppend(head, rest, key, k);
    WithKeyAppend(head, s[1..], key, k);
    var a, b := WithKey(head, key, k), WithKey(s[1..], key, k);
    assert a + (b + t) == (a + b) + t;
  }

  /** The step of `InsertDescWithKey` where `x` goes in front. */
  lemma {:induction false} InsertDescWithKeyFront<T>(x: T, s: seq<T>, key: T -> int, k: int)
    requires |s| > 0 && key(s[0]) < key(x) && SortedDesc(s, key)
    ensures WithKey(InsertDesc(x, s, key), key, k) == WithKey(s, key, k) + (if key(x) == k then [x] else [])
  {
    SortedTail(s, key);
    assert InsertDesc(x, s, key) == [x] + s;
    WithKeySingle(x, key, k);
    WithKeyAppend([x], s, key, k);
    if key(x) == k {
      WithKeyNone(s, key, k);
    }
  }

  /** Inserting `x` into a sorted sequence keeps the elements of each key in their order and
      puts `x` after the elements that share its key. */
  lemma {:induction false} InsertDescWithKey<T>(x: T, s: seq<T>, key: T -> int, k: int)
    requires SortedDesc(s, key)
    ensures WithKey(InsertDesc(x, s, key), key, k) == WithKey(s, key, k) + (if key(x) == k then [x] else [])
    decreases |s|
  {
    if |s| == 0 {
      assert InsertDesc(x, s, key) == [x];
      WithKeySingle(x, key, k);
    } else if key(s[0]) >= key(x) {
      SortedTail(s, key);
      InsertDescWithKey(x, s[1..], key, k);
      InsertDescWithKeyPast(x, s, key, k);
    } else {
      InsertDescWithKeyFront(x, s, key, k);
    }
  }

  /** `[...s].sort((a, b) => key(b) - key(a))`: a stable sort, largest key first. */
  function SortDesc<T>(s: seq<T>, key: T -> int): (r: seq<T>)
    ensures |r| == |s|
    ensures multiset(r) == multiset(s)
  {
    if |s| == 0 then []
    else
      var init := s[..|s| - 1];
      assert s == init + [s[|s| - 1]];
      InsertDesc(s[|s| - 1], SortDesc(init, key), key)
  }

  lemma {:induction false} SortDescSorted<T>(s: seq<T>, key: T -> int)
    ensures SortedDesc(SortDesc(s, key), key)
    decreases |s|
  {
    if |s| > 0 {
      SortDescSorted(s[..|s| - 1], key);
      InsertDescSorted(s[|s| - 1], SortDesc(s[..|s| - 1], key), key);
    }
  }

  /** The sort is stable: the elements that share a key keep their relative order. */
  lemma {:induction false} SortDescStable<T>(s: seq<T>, key: T -> int, k: int)
    ensures WithKey(SortDesc(s, key), key, k) == WithKey(s, key, k)
    decreases |s|
  {
    if |s| > 0 {
      var init := s[..|s| - 1];
      SortDescStable(init, key, k);
      SortDescSorted(init, key);
      InsertDescWithKey(s[|s| - 1], SortDesc(init, key), key, k);
    }
  }

  /** Cutting the sorted copy after `m` elements leaves, for each key, a prefix of the
      elements of `s` with that key, in their order in `s`; all of them when nothing is cut. */
  lemma {:induction false} SortDescPrefixStable<T>(s: seq<T>, key: T -> int, m: nat, k: int, shown: seq<T>)
    requires m <= |s| && shown == SortDesc(s, key)[..m]
    ensures |WithKey(shown, key, k)| <= |WithKey(s, key, k)|
    ensures WithKey(shown, key, k) == WithKey(s, key, k)[..|WithKey(shown, key, k)|]
    ensures m == |s| ==> WithKey(shown, key, k) == WithKey(s, key, k)
  {
    var r := SortDesc(s, key);
    assert r == shown + r[m..];
    WithKeyAppend(shown, r[m..], key, k);
    SortDescStable(s, key, k);
    var kept := WithKey(shown, key, k);
    var all := WithKey(s, key, k);
    assert all == kept + WithKey(r[m..], key, k);
    assert all[..|kept|] == kept;
    if m == |s| {
      assert shown == r;
    }
  }

  /** The first `m` elements of the sorted copy are sorted and come from `s`. */
  lemma {:induction false} SortDescPrefix<T>(s: seq<T>, key: T -> int, m: nat)
    requires m <= |s|
    ensures SortedDesc(SortDesc(s, key)[..m], key)
    ensures forall x :: x in SortDesc(s, key)[..m] ==> x in s
  {
    var r := SortDesc(s, key);
    SortDescSorted(s, key);
    forall x | x in r[..m] ensures x in s {
      assert x in multiset(r);
    }
  }

  /** An element of `s` missing from the first `m` elements of the sorted copy has a key no
      larger than any of them. */
  lemma {:induction false} SortDescPrefixNewest<T>(s: seq<T>, key: T -> int, m: nat, x: T, y: T)
    requires m <= |s| && x in s && x !in SortDesc(s, key)[..m] && y in SortDesc(s, key)[..m]
    ensures key(x) <= key(y)
  {
    var r := SortDesc(s, key);
    SortDescSorted(s, key);
    assert x in multiset(r);
    var j :| 0 <= j < |r| && r[j] == x;
    var i :| 0 <= i < m && r[..m][i] == y;
    assert r[i] == y;
  }

  /** The largest key of a non-empty sequence. */
  function MaxKey<T>(s: seq<T>, key: T -> int): (m: int)
    requires |s| > 0
    ensures forall i :: 0 <= i < |s| ==> key(s[i]) <= m
    ensures exists i :: 0 <= i < |s| && key(s[i]) == m
  {
    if |s| == 1 then key(s[0])
    else
      var m := MaxKey(s[..|s| - 1], key);
      assert forall i :: 0 <= i < |s| - 1 ==> s[..|s| - 1][i] == s[i];
      if key(s[|s| - 1]) > m then key(s[|s| - 1]) else m
  }

  /** The first `m` elements of the sorted copy are drawn from `s`, counted with their
      multiplicity, and an element left out has a key no greater than any kept. */
  lemma {:induction false} SortDescPrefixMultiset<T>(s: seq<T>, key: T -> int, m: nat)
    requires m <= |s|
    ensures multiset(SortDesc(s, key)[..m]) <= multiset(s)
    ensures forall a, b :: (a in multiset(s) - multiset(SortDesc(s, key)[..m]) && b in SortDesc(s, key)[..m])
                           ==> key(a) <= key(b)
  {
    var r := SortDesc(s, key);
    SortDescSorted(s, key);
    assert r == r[..m] + r[m..];
    assert multiset(r) == multiset(r[..m]) + multiset(r[m..]);
    forall a, b | a in multiset(s) - multiset(r[..m]) && b in r[..m]
      ensures key(a) <= key(b)
    {
      SortedPrefixLeftOut(r, m, key, a, b);
    }
  }

  /** In a sequence sorted by descending key, an element left out of a prefix (counted with
      its multiplicity) has a key no greater than any element of the prefix. */
  lemma {:induction false} SortedPrefixLeftOut<T>(sorted: seq<T>, k: nat, key: T -> int, a: T, b: T)
    requires SortedDesc(sorted, key) && k <= |sorted|
    requires a in multiset(sorted) - multiset(sorted[..k]) && b in sorted[..k]
    ensures key(a) <= key(b)
  {
    var kept, rest := sorted[..k], sorted[k..];
    assert sorted == kept + rest;
    assert multiset(sorted) == multiset(kept) + multiset(rest);
    assert a in rest;
    var i :| 0 <= i < |rest| && rest[i] == a;
    var j :| 0 <= j < |kept| && kept[j] == b;
    assert sorted[k + i] == a && sorted[j] == b;
  }

  /** The first element of a sorted copy is the first element, in the original order, that
      carries the largest key: `sort(...)[0]` picks the latest entry and, among entries with
      equal timestamps, the one that came first. */
  lemma {:induction false} SortDescHead<T>(s: seq<T>, key: T -> int)
    requires |s| > 0
    ensures exists i :: 0 <= i < |s| && SortDesc(s, key)[0] == s[i]
                        && key(s[i]) == MaxKey(s, key)
                        && forall j :: 0 <= j < i ==> key(s[j]) < MaxKey(s, key)
  {
    var r := SortDesc(s, key);
    var m := MaxKey(s, key);
    var i0 := FirstWithKey(s, key, m);
    SortDescSorted(s, key);
    SortDescStable(s, key, m);
    SortedHeadKey(r, s, key);
    WithKeyHead(r, key, 0);
    WithKeyHead(s, key, i0);
  }

  /** The head of a sorted permutation of `s` carries the largest key of `s`. */
  /** The first element of the sorted sequence is an element with the greatest key. */
  /** The first of the sorted elements that pass a filter is, among those of greatest key, the
      first to pass in the input. */
  lemma {:induction false} SortDescFilterHead<T(!new)>(s: seq<T>, p: T -> bool, key: T -> int)
    requires |Filter(s, p)| > 0
    ensures exists i :: 0 <= i < |s| && s[i] == SortDesc(Filter(s, p), key)[0] && p(s[i])
              && forall j :: 0 <= j < i && p(s[j]) ==> key(s[j]) < key(s[i])
  {
    var own := Filter(s, p);
    SortDescHead(own, key);
    var m := MaxKey(own, key);
    var k :| 0 <= k < |own| && SortDesc(own, key)[0] == own[k]
             && key(own[k]) == m && forall j :: 0 <= j < k ==> key(own[j]) < m;
    var i := FilterPosition(s, p, k);
    forall j | 0 <= j < i && p(s[j])
      ensures key(s[j]) < key(s[i])
    {
      FilteredBefore(s, p, i, k, j);
    }
  }

  /** An element passing the filter before position `i`, where the first `k` filtered
      elements come from before `i`, is one of those `k`. */
  lemma {:induction false} FilteredBefore<T(!new)>(s: seq<T>, p: T -> bool, i: nat, k: nat, j: nat)
    requires j < i <= |s| && p(s[j]) && k <= |Filter(s, p)|
    requires Filter(s[..i], p) == Filter(s, p)[..k]
    ensures exists l :: 0 <= l < k && Filter(s, p)[l] == s[j]
  {
    assert s[j] == s[..i][j];
    assert s[j] in Filter(s[..i], p);
    var l :| 0 <= l < k && Filter(s, p)[..k][l] == s[j];
  }

  lemma {:induction false} SortDescFirst<T>(s: seq<T>, key: T -> int)
    requires |s| > 0
    ensures SortDesc(s, key)[0] in s
    ensures forall x :: x in s ==> key(x) <= key(SortDesc(s, key)[0])
  {
    SortDescHead(s, key);
    forall x | x in s ensures key(x) <= key(SortDesc(s, key)[0]) {
      var k :| 0 <= k < |s| && s[k] == x;
    }
  }

  lemma {:induction false} SortedHeadKey<T>(r: seq<T>, s: seq<T>, key: T -> int)
    requires |s| > 0 && SortedDesc(r, key) && multiset(r) == multiset(s)
    ensures |r| > 0 && key(r[0]) == MaxKey(s, key)
  {
    var m := MaxKey(s, key);
    var i :| 0 <= i < |s| && key(s[i]) == m;
    assert s[i] in multiset(r);
    var j :| 0 <= j < |r| && r[j] == s[i];
    assert r[0] in multiset(s);
  }

  /** When `i` is the first position with key `k`, the elements with key `k` start with `s[i]`. */
  lemma {:induction false} WithKeyHead<T>(s: seq<T>, key: T -> int, i: nat)
    requires i < |s| && forall j :: 0 <= j < i ==> key(s[j]) != key(s[i])
    ensures |WithKey(s, key, key(s[i]))| > 0 && WithKey(s, key, key(s[i]))[0] == s[i]
  {
    var k := key(s[i]);
    assert s == s[..i] + [s[i]] + s[i + 1..];
    WithKeyAppend(s[..i] + [s[i]], s[i + 1..], key, k);
    WithKeyAppend(s[..i], [s[i]], key, k);
    WithKeyNone(s[..i], key, k);
    assert WithKey([s[i]], key, k) == [s[i]] by { assert [s[i]][..0] == []; }
  }

  /** The index of the first element whose key is `k`. */
  function FirstWithKey<T>(s: seq<T>, key: T -> int, k: int): (i: nat)
    requires exists i :: 0 <= i < |s| && key(s[i]) == k
    ensures i < |s| && key(s[i]) == k
    ensures forall j :: 0 <= j < i ==> key(s[j]) != k
  {
    if key(s[0]) == k then 0
    else
      assert exists i :: 0 <= i < |s[1..]| && key(s[1..][i]) == k by {
        var i :| 0 <= i < |s| && key(s[i]) == k;
        assert s[1..][i - 1] == s[i];
      }
      FirstWithKey(s[1..], key, k) + 1
  }
}

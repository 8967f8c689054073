/** Sorting by a "less" relation, as sortCandidates does: the relation need
    only be a strict weak order, and where it is also total on the elements
    at hand the sorted sequence is unique. */
module Ordering {

  /** What slices.SortFunc asks of the relation it is given. */
  ghost predicate StrictWeakOrder<T(!new)>(less: (T, T) -> bool) {
    && (forall a :: !less(a, a))
    && (forall a, b, c :: less(a, b) && less(b, c) ==> less(a, c))
    && (forall a, b, c :: less(a, c) ==> less(a, b) || less(b, c))
  }

  ghost predicate Sorted<T>(less: (T, T) -> bool, s: seq<T>) {
    forall i, j | 0 <= i < j < |s| :: !less(s[j], s[i])
  }

  /** No two elements of s tie. */
  ghost predicate TotalOn<T>(less: (T, T) -> bool, s: seq<T>) {
    forall i, j | 0 <= i < |s| && 0 <= j < |s| && s[i] != s[j] :: less(s[i], s[j]) || less(s[j], s[i])
  }

  ghost predicate SortedPermutation<T>(less: (T, T) -> bool, s: seq<T>, t: seq<T>) {
    Sorted(less, t) && multiset(t) == multiset(s)
  }

  /** The first i + 1 elements are in order but for the one at j, which is
      still to move down. */
  ghost predicate SortedBut<T>(less: (T, T) -> bool, s: seq<T>, i: nat, j: nat) {
    forall p, q | 0 <= p < q <= i && q < |s| && q != j :: !less(s[q], s[p])
  }

  /** The inner loop of an insertion sort: element i moves down to its place. */
  method MoveDown<T(!new)>(a: array<T>, less: (T, T) -> bool, i: nat)
    requires StrictWeakOrder(less)
    requires i < a.Length && Sorted(less, a[..i])
    modifies a
    ensures Sorted(less, a[..i + 1])
    ensures multiset(a[..]) == multiset(old(a[..]))
  {
    var j := i;
    assert SortedBut(less, a[..], i, i) by {
      assert forall p | 0 <= p < i :: a[p] == a[..i][p];
    }
    while j > 0 && less(a[j], a[j - 1])
      invariant 0 <= j <= i
      invariant SortedBut(less, a[..], i, j)
      invariant multiset(a[..]) == multiset(old(a[..]))
    {
      ghost var before := a[..];
      a[j], a[j - 1] := a[j - 1], a[j];
      SwapKeeps(less, before, a[..], i, j);
      j := j - 1;
    }
    InPlace(less, a[..], i, j);
  }

  lemma SwapKeeps<T(!new)>(less: (T, T) -> bool, s: seq<T>, t: seq<T>, i: nat, j: nat)
    requires StrictWeakOrder(less)
    requires 0 < j <= i < |s| && SortedBut(less, s, i, j) && less(s[j], s[j - 1])
    requires t == s[j := s[j - 1]][j - 1 := s[j]]
    ensures SortedBut(less, t, i, j - 1) && multiset(t) == multiset(s)
  {
    forall p, q | 0 <= p < q <= i && q != j - 1 ensures !less(t[q], t[p]) {
      if q == j && p < j - 1 { assert !less(s[j - 1], s[p]); }
    }
  }

  lemma InPlace<T(!new)>(less: (T, T) -> bool, s: seq<T>, i: nat, j: nat)
    requires StrictWeakOrder(less)
    requires j <= i < |s| && SortedBut(less, s, i, j)
    requires j > 0 ==> !less(s[j], s[j - 1])
    ensures Sorted(less, s[..i + 1])
  {
    forall p | 0 <= p < j ensures !less(s[j], s[p]) {
      if p < j - 1 { assert !less(s[j - 1], s[p]); }
    }
  }

  /** sortCandidates sorts the slice it is given in place; Go runs an
      insertion sort on slices of up to twelve elements. */
  method SortInPlace<T(!new)>(a: array<T>, less: (T, T) -> bool)
    requires StrictWeakOrder(less)
    modifies a
    ensures SortedPermutation(less, old(a[..]), a[..])
  {
    var i := 1;
    while i < a.Length
      invariant 1 <= i && (i <= a.Length || a.Length == 0)
      invariant a.Length > 0 ==> Sorted(less, a[..i])
      invariant multiset(a[..]) == multiset(old(a[..]))
    {
      MoveDown(a, less, i);
      i := i + 1;
    }
    if a.Length > 0 { assert a[..i] == a[..]; }
  }

  /** Neither comes before the other. */
  predicate Tied<T>(less: (T, T) -> bool, x: T, y: T) {
    !less(x, y) && !less(y, x)
  }

  /** Two sorted arrangements of the same elements agree on their first k as
      long as none of those ties with a different element. */
  lemma {:induction false} PrefixIsUnique<T>(less: (T, T) -> bool, s: seq<T>, t: seq<T>, k: nat)
    requires Sorted(less, s) && Sorted(less, t)
    requires multiset(s) == multiset(t) && k <= |s| == |t|
    requires forall i, y | 0 <= i < k && y in s && y != s[i] :: !Tied(less, s[i], y)
    ensures s[..k] == t[..k]
  {
    if k > 0 {
      SameHead(less, s, t);
      TailsMatch(s, t);
      forall i, y | 0 <= i < k - 1 && y in s[1..] && y != s[1..][i] ensures !Tied(less, s[1..][i], y) {
        assert s[1..][i] == s[i + 1] && y in s;
      }
      PrefixIsUnique(less, s[1..], t[1..], k - 1);
      assert s[..k] == [s[0]] + s[1..][..k - 1] && t[..k] == [t[0]] + t[1..][..k - 1];
    }
  }

  lemma TailsMatch<T>(s: seq<T>, t: seq<T>)
    requires s != [] && t != [] && s[0] == t[0] && multiset(s) == multiset(t)
    ensures multiset(s[1..]) == multiset(t[1..])
  {
    assert s == [s[0]] + s[1..] && t == [t[0]] + t[1..];
    assert multiset(s[1..]) == multiset(s) - multiset{s[0]};
    assert multiset(t[1..]) == multiset(t) - multiset{t[0]};
  }

  lemma SameHead<T>(less: (T, T) -> bool, s: seq<T>, t: seq<T>)
    requires s != [] && t != []
    requires Sorted(less, s) && Sorted(less, t) && multiset(s) == multiset(t)
    requires forall y | y in s && y != s[0] :: !Tied(less, s[0], y)
    ensures s[0] == t[0]
  {
    assert s[0] in multiset(t) && t[0] in multiset(s);
    var j :| 0 <= j < |t| && t[j] == s[0];
    var i :| 0 <= i < |s| && s[i] == t[0];
    assert j > 0 ==> !less(t[j], t[0]);
    assert i > 0 ==> !less(s[i], s[0]);
    assert i > 0 && j > 0 ==> Tied(less, s[0], t[0]);
    assert t[0] in s;
  }

  /** Two sorted arrangements of the same elements are the same sequence when
      no two of them tie. */
  lemma SortedIsUnique<T>(less: (T, T) -> bool, s: seq<T>, t: seq<T>)
    requires Sorted(less, s) && Sorted(less, t)
    requires multiset(s) == multiset(t)
    requires TotalOn(less, s)
    ensures s == t
  {
    SameLength(s, t);
    PrefixIsUnique(less, s, t, |s|);
  }

  /** Exchanging two elements that tie keeps a sequence sorted. */
  lemma SwapTied<T(!new)>(less: (T, T) -> bool, t: seq<T>, p: nat, i: nat)
    requires StrictWeakOrder(less) && Sorted(less, t)
    requires p < |t| && i < |t| && Tied(less, t[p], t[i])
    ensures SortedPermutation(less, t, t[p := t[i]][i := t[p]])
  {
    var u := t[p := t[i]][i := t[p]];
    forall a, b | 0 <= a < b < |t| ensures !less(u[b], u[a]) {
      TiesAreAlike(less, t[a], u[a], t[b], u[b]);
    }
  }

  lemma TiesAreAlike<T(!new)>(less: (T, T) -> bool, x: T, x': T, y: T, y': T)
    requires StrictWeakOrder(less) && Tied(less, x, x') && Tied(less, y, y') && !less(y, x)
    ensures !less(y', x')
  {
    assert less(y', x') ==> less(y', y) || less(y, x');
    assert less(y, x') ==> less(y, x) || less(x, x');
  }

  /** The first position whose element ties with x. */
  lemma FirstTied<T(!new)>(less: (T, T) -> bool, t: seq<T>, x: T) returns (p: nat)
    requires StrictWeakOrder(less) && Sorted(less, t) && x in t
    ensures p < |t| && Tied(less, t[p], x)
    ensures forall q | 0 <= q < p :: less(t[q], x)
  {
    var i :| 0 <= i < |t| && t[i] == x;
    p := 0;
    while less(t[p], x)
      invariant p <= i
      invariant forall q | 0 <= q < p :: less(t[q], x)
      decreases i - p
    {
      p := p + 1;
    }
    assert p < i ==> !less(t[i], t[p]);
  }

  lemma SameLength<T>(s: seq<T>, t: seq<T>)
    requires multiset(s) == multiset(t)
    ensures |s| == |t|
  {
    assert |multiset(s)| == |s| && |multiset(t)| == |t|;
  }

  /** A sort as an expression, for callers that sort a stream of values. */
  function SortSeq<T>(less: (T, T) -> bool, s: seq<T>): (t: seq<T>)
    ensures multiset(t) == multiset(s)
  {
    if s == [] then []
    else
      assert s == [s[0]] + s[1..];
      Insert(less, s[0], SortSeq(less, s[1..]))
  }

  function Insert<T>(less: (T, T) -> bool, x: T, s: seq<T>): (t: seq<T>)
    ensures multiset(t) == multiset{x} + multiset(s)
  {
    if s == [] || !less(s[0], x) then [x] + s
    else
      assert s == [s[0]] + s[1..];
      [s[0]] + Insert(less, x, s[1..])
  }

  lemma {:induction false} SortSeqSorts<T(!new)>(less: (T, T) -> bool, s: seq<T>)
    requires StrictWeakOrder(less)
    ensures Sorted(less, SortSeq(less, s))
  {
    if s != [] {
      SortSeqSorts(less, s[1..]);
      InsertKeepsSorted(less, s[0], SortSeq(less, s[1..]));
    }
  }

  lemma {:induction false} InsertKeepsSorted<T(!new)>(less: (T, T) -> bool, x: T, s: seq<T>)
    requires StrictWeakOrder(less)
    requires Sorted(less, s)
    ensures Sorted(less, Insert(less, x, s))
  {
    if s != [] && less(s[0], x) {
      InsertKeepsSorted(less, x, s[1..]);
      var t := Insert(less, x, s[1..]);
      forall j | 0 <= j < |t| ensures !less(t[j], s[0]) {
        assert t[j] in multiset(t);
        assert t[j] == x || t[j] in s[1..];
      }
    } else if s != [] {
      forall j | 0 <= j < |s| ensures !less(s[j], x) {
        assert !less(s[0], x);
        assert j > 0 ==> !less(s[j], s[0]);
      }
    }
  }

  /** In a sorted sequence without ties, every element of the prefix comes
      before every element of the rest. */
  lemma PrefixDominates<T>(less: (T, T) -> bool, s: seq<T>, k: nat, i: nat, j: nat)
    requires Sorted(less, s) && TotalOn(less, s)
    requires i < k <= j < |s|
    requires s[i] != s[j]
    ensures less(s[i], s[j])
  {
    assert !less(s[j], s[i]);
  }

  /** Nothing after a cut of a sorted sequence is less than anything before it. */
  lemma CutDominates<T(!new)>(less: (T, T) -> bool, s: seq<T>, t: seq<T>, k: nat)
    requires SortedPermutation(less, s, t) && k <= |t|
    ensures multiset(t[..k]) <= multiset(s)
    ensures forall x, y | x in t[..k] && y in multiset(s) - multiset(t[..k]) :: !less(y, x)
  {
    var c, rest := t[..k], t[k..];
    assert t == c + rest;
    assert multiset(s) - multiset(c) == multiset(rest);
    forall x, y | x in c && y in multiset(s) - multiset(c) ensures !less(y, x) {
      assert y in multiset(rest);
      HeadBeforeTail(less, t, k, x, y);
    }
  }

  lemma HeadBeforeTail<T(!new)>(less: (T, T) -> bool, t: seq<T>, k: nat, x: T, y: T)
    requires Sorted(less, t) && k <= |t| && x in t[..k] && y in t[k..]
    ensures !less(y, x)
  {
    var i :| 0 <= i < k && t[i] == x;
    var j :| k <= j < |t| && t[j] == y;
  }

  /** No two elements of s have the same key. */
  ghost predicate DistinctBy<T, K>(key: T -> K, s: seq<T>) {
    forall i, j | 0 <= i < j < |s| :: key(s[i]) != key(s[j])
  }

  /** Keys that are distinct in one arrangement are distinct in every other. */
  lemma DistinctByPermuted<T, K>(key: T -> K, s: seq<T>, t: seq<T>)
    requires multiset(s) == multiset(t) && DistinctBy(key, s)
    ensures DistinctBy(key, t)
  {
    forall i, j | 0 <= i < j < |t| ensures key(t[i]) != key(t[j]) {
      if key(t[i]) == key(t[j]) {
        assert t[i] in multiset(s) && t[j] in multiset(s);
        assert t[i] == t[j];
        CountTwice(t, i, j);
        CountOnce(key, s, t[i]);
      }
    }
  }

  lemma {:induction false} CountOnce<T, K>(key: T -> K, s: seq<T>, x: T)
    requires DistinctBy(key, s)
    ensures multiset(s)[x] <= 1
  {
    if s != [] {
      CountOnce(key, s[1..], x);
      assert s == [s[0]] + s[1..];
      assert forall k | 0 <= k < |s[1..]| :: s[1..][k] == s[k + 1];
      assert s[0] !in s[1..];
    }
  }

  lemma CountTwice<T>(t: seq<T>, i: nat, j: nat)
    requires i < j < |t| && t[i] == t[j]
    ensures multiset(t)[t[i]] >= 2
  {
    assert t == t[..j] + [t[j]] + t[j + 1..];
    assert t[i] in t[..j];
  }
}

/** Candidate reports and the order in which they are preferred:
    MongoCandidateReport and its Less (mongo.go), KafkaCandidateReport and its
    Less (kafka.go), and the choice of the first three after sorting. */
module Candidates {
  import opened Ordering

  type uint32 = n: int | 0 <= n <= 0xffff_ffff

  /** Byte-wise string comparison, as Go's < on strings. */
  predicate StrLess(a: string, b: string) {
    b != [] && (a == [] || a[0] < b[0] || (a[0] == b[0] && StrLess(a[1..], b[1..])))
  }

  lemma {:induction false} StrLessTransitive(a: string, b: string, c: string)
    requires StrLess(a, b) && StrLess(b, c)
    ensures StrLess(a, c)
  {
    if a != [] && a[0] == b[0] && b[0] == c[0] {
      StrLessTransitive(a[1..], b[1..], c[1..]);
    }
  }

  lemma {:induction false} StrLessIrreflexive(a: string)
    ensures !StrLess(a, a)
  {
    if a != [] { StrLessIrreflexive(a[1..]); }
  }

  lemma {:induction false} StrLessTotal(a: string, b: string)
    ensures a == b || StrLess(a, b) || StrLess(b, a)
  {
    if a != [] && b != [] && a[0] == b[0] {
      StrLessTotal(a[1..], b[1..]);
      assert a == [a[0]] + a[1..] && b == [b[0]] + b[1..];
    }
  }

  /** The first difference decides, and a proper prefix comes first. */
  lemma {:induction false} StrLessMeans(p: string, c: char, d: char, a: string, b: string)
    ensures StrLess(p, p + [c] + a) && !StrLess(p + [c] + a, p)
    ensures c != d ==> (StrLess(p + [c] + a, p + [d] + b) <==> c < d)
  {
    if p != [] {
      StrLessMeans(p[1..], c, d, a, b);
      assert (p + [c] + a)[1..] == p[1..] + [c] + a;
      assert (p + [d] + b)[1..] == p[1..] + [d] + b;
    }
  }

  lemma StrLessIsStrictWeakOrder()
    ensures StrictWeakOrder(StrLess)
  {
    forall a ensures !StrLess(a, a) { StrLessIrreflexive(a); }
    forall a, b, c | StrLess(a, b) && StrLess(b, c) ensures StrLess(a, c) { StrLessTransitive(a, b, c); }
    forall a, b, c | StrLess(a, c) ensures StrLess(a, b) || StrLess(b, c) {
      StrLessTotal(a, b);
      if StrLess(b, a) { StrLessTransitive(b, a, c); }
    }
  }

  datatype MongoReport = MongoReport(
    nodeId: string,
    nodeName: string,
    replSetId: string,
    replSetName: string,
    members: string,
    term: int,
    firstSec: uint32,
    firstInc: uint32,
    lastSec: uint32,
    lastInc: uint32,
    addr: string,
    port: string)

  /** MongoCandidateReport.Less: newest oplog first, then the greater name. */
  predicate Newer(m: MongoReport, o: MongoReport) {
    if m.lastSec == o.lastSec then
      if m.lastInc == o.lastInc then StrLess(o.nodeName, m.nodeName)
      else m.lastInc > o.lastInc
    else m.lastSec > o.lastSec
  }

  lemma NewerIsStrictWeakOrder()
    ensures StrictWeakOrder(Newer)
  {
    StrLessIsStrictWeakOrder();
  }

  ghost predicate DistinctNames(s: seq<MongoReport>) {
    forall i, j | 0 <= i < j < |s| :: s[i].nodeName != s[j].nodeName
  }

  /** Reports with distinct names never tie, so Less is a strict total order
      on every snapshot of the store. */
  lemma NewerIsTotal(s: seq<MongoReport>)
    requires DistinctNames(s)
    ensures TotalOn(Newer, s)
  {
    forall i, j | 0 <= i < |s| && 0 <= j < |s| && s[i] != s[j]
      ensures Newer(s[i], s[j]) || Newer(s[j], s[i])
    {
      assert i < j || j < i;
      StrLessTotal(s[i].nodeName, s[j].nodeName);
    }
  }

  function Min3(n: nat): nat {
    if n < 3 then n else 3
  }

  /** chosen is what sorting s and keeping at most three leaves. */
  ghost predicate Selects<T(!new)>(less: (T, T) -> bool, s: seq<T>, chosen: seq<T>) {
    exists t :: SortedPermutation(less, s, t) && chosen == t[..Min3(|t|)]
  }

  /** The sort of a snapshot followed by the cut to three, in place on the
      candidate slice as handleTimer does it. */
  method SortAndCut<T(!new)>(candidates: array<T>, less: (T, T) -> bool) returns (chosen: seq<T>)
    requires StrictWeakOrder(less)
    modifies candidates
    ensures SortedPermutation(less, old(candidates[..]), candidates[..])
    ensures chosen == candidates[..Min3(candidates.Length)]
    ensures Selects(less, old(candidates[..]), chosen)
  {
    SortInPlace(candidates, less);
    var length := 3;
    if candidates.Length < 3 {
      length := candidates.Length;
    }
    chosen := candidates[0..length];
    assert chosen == candidates[..][..Min3(|candidates[..]|)];
  }

  /** The selection does not depend on the order in which the store lists the
      reports: every permutation of a snapshot gives the same sequence. */
  lemma CanonicalSelection(s: seq<MongoReport>, s': seq<MongoReport>, c: seq<MongoReport>, c': seq<MongoReport>)
    requires DistinctNames(s)
    requires multiset(s) == multiset(s')
    requires Selects(Newer, s, c) && Selects(Newer, s', c')
    ensures c == c' && |c| == Min3(|s|)
  {
    var t :| SortedPermutation(Newer, s, t) && c == t[..Min3(|t|)];
    var t' :| SortedPermutation(Newer, s', t') && c' == t'[..Min3(|t'|)];
    NewerIsTotal(s);
    TotalOnPermutation(Newer, s, t);
    SortedIsUnique(Newer, t, t');
    SameLength(s, t);
  }

  lemma TotalOnPermutation<T>(less: (T, T) -> bool, s: seq<T>, t: seq<T>)
    requires TotalOn(less, s) && multiset(s) == multiset(t)
    ensures TotalOn(less, t)
  {
    forall i, j | 0 <= i < |t| && 0 <= j < |t| && t[i] != t[j]
      ensures less(t[i], t[j]) || less(t[j], t[i])
    {
      assert t[i] in multiset(s) && t[j] in multiset(s);
    }
  }

  /** Every chosen report is newer than every report left out. */
  lemma SelectionDominates(s: seq<MongoReport>, c: seq<MongoReport>)
    requires DistinctNames(s)
    requires Selects(Newer, s, c)
    ensures forall x, y | x in c && y in s && y !in c :: Newer(x, y)
  {
    var t :| SortedPermutation(Newer, s, t) && c == t[..Min3(|t|)];
    NewerIsTotal(s);
    TotalOnPermutation(Newer, s, t);
    forall x, y | x in c && y in s && y !in c ensures Newer(x, y) {
      var i :| 0 <= i < |c| && c[i] == x;
      assert y in multiset(t);
      var j :| 0 <= j < |t| && t[j] == y;
      assert forall k | 0 <= k < |c| :: t[k] in c;
      PrefixDominates(Newer, t, |c|, i, j);
    }
  }

  /** The oplog of y ends no later than that of x. */
  predicate NoNewerOplog(y: MongoReport, x: MongoReport) {
    y.lastSec < x.lastSec || (y.lastSec == x.lastSec && y.lastInc <= x.lastInc)
  }

  /** The first chosen report, the primary's, is newer than all others, and its
      oplog reaches as far as any; among equal oplogs it has the greatest name. */
  lemma PrimaryIsNewest(s: seq<MongoReport>, c: seq<MongoReport>)
    requires s != [] && DistinctNames(s)
    requires Selects(Newer, s, c)
    ensures c != [] && (forall x | x in c :: x in s)
    ensures forall y | y in s && y != c[0] :: Newer(c[0], y)
    ensures forall y | y in s :: NoNewerOplog(y, c[0])
    ensures forall y | y in s && y.lastSec == c[0].lastSec && y.lastInc == c[0].lastInc ::
              y == c[0] || StrLess(y.nodeName, c[0].nodeName)
  {
    var t :| SortedPermutation(Newer, s, t) && c == t[..Min3(|t|)];
    NewerIsTotal(s);
    TotalOnPermutation(Newer, s, t);
    SameLength(s, t);
    forall x | x in c ensures x in s { assert x in multiset(s); }
    forall y | y in s && y != c[0] ensures Newer(c[0], y) {
      assert y in multiset(t);
      var j :| 0 <= j < |t| && t[j] == y;
      PrefixDominates(Newer, t, 1, 0, j);
    }
  }

  // ----- When a selection is canonical -----

  /** In whatever order the elements are listed, the same ones are selected in
      the same sequence. */
  ghost predicate OneSelection<T(!new)>(less: (T, T) -> bool, s: seq<T>) {
    forall s', c, c' | multiset(s') == multiset(s) && Selects(less, s, c) && Selects(less, s', c') :: c == c'
  }

  /** At least three elements of s come before x. */
  ghost predicate ThreeBefore<T(!new)>(less: (T, T) -> bool, s: seq<T>, x: T) {
    exists a, b, c :: multiset{a, b, c} <= multiset(s) && less(a, x) && less(b, x) && less(c, x)
  }

  /** The selection is canonical exactly when any two different elements that
      tie have three elements before them. */
  lemma OneSelectionIff<T(!new)>(less: (T, T) -> bool, s: seq<T>)
    requires StrictWeakOrder(less)
    ensures OneSelection(less, s) <==>
      forall x, y | x in s && y in s && x != y && Tied(less, x, y) :: ThreeBefore(less, s, x)
  {
    if forall x, y | x in s && y in s && x != y && Tied(less, x, y) :: ThreeBefore(less, s, x) {
      forall s', c, c' | multiset(s') == multiset(s) && Selects(less, s, c) && Selects(less, s', c') ensures c == c' {
        LateTiesDoNotMatter(less, s, s', c, c');
      }
    } else {
      var x, y :| x in s && y in s && x != y && Tied(less, x, y) && !ThreeBefore(less, s, x);
      var c, c' := EarlyTieMatters(less, s, x, y);
    }
  }

  /** Fewer than three elements come before one of the first three. */
  lemma FewBefore<T(!new)>(less: (T, T) -> bool, s: seq<T>, t: seq<T>, i: nat)
    requires StrictWeakOrder(less) && SortedPermutation(less, s, t) && i < |t| && i < 3
    ensures !ThreeBefore(less, s, t[i])
  {
    forall a, b, c | less(a, t[i]) && less(b, t[i]) && less(c, t[i]) ensures !(multiset{a, b, c} <= multiset(s)) {
      LiesInFront(less, t, i, a);
      LiesInFront(less, t, i, b);
      LiesInFront(less, t, i, c);
      ThreeDoNotFit(t, i, a, b, c);
    }
  }

  lemma LiesInFront<T(!new)>(less: (T, T) -> bool, t: seq<T>, i: nat, z: T)
    requires StrictWeakOrder(less) && Sorted(less, t) && i < |t| && less(z, t[i])
    ensures z !in t[i..]
  {
    assert forall j | i <= j < |t| :: j == i || !less(t[j], t[i]);
  }

  lemma ThreeDoNotFit<T(!new)>(t: seq<T>, i: nat, a: T, b: T, c: T)
    requires i < |t| && i < 3 && a !in t[i..] && b !in t[i..] && c !in t[i..]
    ensures !(multiset{a, b, c} <= multiset(t))
  {
    var three, front := multiset{a, b, c}, multiset(t[..i]);
    assert t == t[..i] + t[i..];
    assert three <= multiset(t) ==> three <= front;
    SubsetSize(three, front);
    assert |front| == i;
  }

  lemma SubsetSize<T(!new)>(m: multiset<T>, n: multiset<T>)
    ensures m <= n ==> |m| <= |n|
  {
    if m <= n { assert n == m + (n - m); }
  }

  lemma LateTiesDoNotMatter<T(!new)>(less: (T, T) -> bool, s: seq<T>, s': seq<T>, c: seq<T>, c': seq<T>)
    requires StrictWeakOrder(less) && multiset(s') == multiset(s)
    requires forall x, y | x in s && y in s && x != y && Tied(less, x, y) :: ThreeBefore(less, s, x)
    requires Selects(less, s, c) && Selects(less, s', c')
    ensures c == c'
  {
    var t :| SortedPermutation(less, s, t) && c == t[..Min3(|t|)];
    var t' :| SortedPermutation(less, s', t') && c' == t'[..Min3(|t'|)];
    SameLength(t, t');
    forall i, y | 0 <= i < Min3(|t|) && y in t && y != t[i] ensures !Tied(less, t[i], y) {
      FewBefore(less, s, t, i);
      assert t[i] in multiset(s) && y in multiset(s);
    }
    PrefixIsUnique(less, t, t', Min3(|t|));
  }

  /** Two arrangements that differ at the first place of the tie. */
  lemma EarlyTieMatters<T(!new)>(less: (T, T) -> bool, s: seq<T>, x: T, y: T) returns (c: seq<T>, c': seq<T>)
    requires StrictWeakOrder(less)
    requires x in s && y in s && x != y && Tied(less, x, y) && !ThreeBefore(less, s, x)
    ensures Selects(less, s, c) && Selects(less, s, c') && c != c'
  {
    var t := SortSeq(less, s);
    SortSeqSorts(less, s);
    assert x in multiset(t) && y in multiset(t);
    var p := FirstTied(less, t, x);
    if p >= 3 { FirstThree(less, s, t, x); }
    c := WithAt(less, s, t, p, x);
    c' := WithAt(less, s, t, p, y);
  }

  lemma FirstThree<T(!new)>(less: (T, T) -> bool, s: seq<T>, t: seq<T>, x: T)
    requires multiset(t) == multiset(s) && |t| >= 3
    requires forall q | 0 <= q < 3 :: less(t[q], x)
    ensures ThreeBefore(less, s, x)
  {
    assert t == [t[0], t[1], t[2]] + t[3..];
    assert multiset{t[0], t[1], t[2]} <= multiset(s);
  }

  /** A selection that has z, which ties with what is there, at place p. */
  lemma WithAt<T(!new)>(less: (T, T) -> bool, s: seq<T>, t: seq<T>, p: nat, z: T) returns (c: seq<T>)
    requires StrictWeakOrder(less) && SortedPermutation(less, s, t)
    requires p < 3 && p < |t| && z in t && Tied(less, t[p], z)
    ensures Selects(less, s, c) && p < |c| && c[p] == z
  {
    var i :| 0 <= i < |t| && t[i] == z;
    SwapTied(less, t, p, i);
    var u := t[p := t[i]][i := t[p]];
    c := u[..Min3(|u|)];
  }

  datatype KafkaReport = KafkaReport(
    controllerAddr: string,
    controllerPort: string,
    brokerAddr: string,
    brokerPort: string,
    storageId: string,
    mtime: string,
    nodeId: string,
    nodeName: string)

  /** KafkaCandidateReport.Less compares the printed modification times. */
  predicate Older(k: KafkaReport, o: KafkaReport) {
    StrLess(k.mtime, o.mtime)
  }

  /** Kafka's order only ranks modification times: the selection is a prefix
      of some arrangement in which no left-out node is strictly older. */
  lemma KafkaSelectionDominates(s: seq<KafkaReport>, c: seq<KafkaReport>)
    requires Selects(Older, s, c)
    ensures StrictWeakOrder(Older)
    ensures |c| == Min3(|s|) && multiset(c) <= multiset(s)
    ensures forall x, y | x in c && y in multiset(s) - multiset(c) :: !StrLess(y.mtime, x.mtime)
    ensures forall i, j | 0 <= i < j < |c| :: !StrLess(c[j].mtime, c[i].mtime)
  {
    OlderSelectionDominates(s, c);
    forall x, y | x in c && y in multiset(s) - multiset(c) ensures !StrLess(y.mtime, x.mtime) { assert !Older(y, x); }
    forall i, j | 0 <= i < j < |c| ensures !StrLess(c[j].mtime, c[i].mtime) { assert !Older(c[j], c[i]); }
  }

  lemma OlderSelectionDominates(s: seq<KafkaReport>, c: seq<KafkaReport>)
    requires Selects(Older, s, c)
    ensures StrictWeakOrder(Older) && Sorted(Older, c)
    ensures |c| == Min3(|s|) && multiset(c) <= multiset(s)
    ensures forall x, y | x in c && y in multiset(s) - multiset(c) :: !Older(y, x)
  {
    StrLessIsStrictWeakOrder();
    var t :| SortedPermutation(Older, s, t) && c == t[..Min3(|t|)];
    SameLength(s, t);
    CutDominates(Older, s, t, |c|);
  }

  /** Two nodes with equal modification times can be chosen in either order. */
  lemma KafkaSelectionIsNotCanonical(a: KafkaReport, b: KafkaReport)
    requires a.mtime == b.mtime && a != b
    ensures Selects(Older, [a, b], [a, b]) && Selects(Older, [a, b], [b, a])
  {
    StrLessIrreflexive(a.mtime);
    assert SortedPermutation(Older, [a, b], [a, b]);
    assert multiset([b, a]) == multiset([a, b]);
    assert SortedPermutation(Older, [a, b], [b, a]);
    assert [a, b] == [a, b][..Min3(2)] && [b, a] == [b, a][..Min3(2)];
  }

  /** Kafka's selection is canonical exactly when any two different reports
      with the same modification time have at least three older ones before
      them; in particular when the times are distinct. */
  lemma KafkaSelectionIsCanonicalIff(s: seq<KafkaReport>)
    ensures OneSelection(Older, s) <==>
      forall a, b | a in s && b in s && a != b && a.mtime == b.mtime :: ThreeBefore(Older, s, a)
  {
    StrLessIsStrictWeakOrder();
    OneSelectionIff(Older, s);
    forall a: KafkaReport, b: KafkaReport ensures Tied(Older, a, b) <==> a.mtime == b.mtime {
      StrLessTotal(a.mtime, b.mtime);
      StrLessIrreflexive(a.mtime);
    }
  }
}

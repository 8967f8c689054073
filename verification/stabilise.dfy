/** mongo_ctrl.js: choosing three nodes, and polling the replica set until a
    primary has been stable. */
module Stabilise {
  import opened Candidates
  import opened Options
  import opened Ordering
  import opened Reconciler

  // ----- The choice -----

  /** A node argument, as a number, and the oplog time stamp getOplog found. */
  datatype JsNode = JsNode(number: int, t: nat, i: nat)

  /** The comparator handed to sort((b, a) => ...); numbers are exact here. */
  function Compare(b: JsNode, a: JsNode): int {
    if a.t == b.t then
      if a.i == b.i then a.number - b.number else a.i - b.i
    else a.t - b.t
  }

  predicate Ahead(x: JsNode, y: JsNode) {
    Compare(x, y) < 0
  }

  ghost predicate DistinctNumbers(s: seq<JsNode>) {
    forall i, j | 0 <= i < j < |s| :: s[i].number != s[j].number
  }

  /** Sorting and slicing is canonical: for distinct node numbers every
      arrangement of the results gives the same three nodes; each of them comes
      before each other node, by oplog and then by the greater number, and the
      first one, the primary, before all. */
  lemma ChoiceIsCanonical(s: seq<JsNode>, s': seq<JsNode>, c: seq<JsNode>, c': seq<JsNode>)
    requires DistinctNumbers(s) && multiset(s) == multiset(s') && s != []
    requires Selects(Ahead, s, c) && Selects(Ahead, s', c')
    ensures c == c' && |c| == Min3(|s|)
    ensures forall y | y in s && y != c[0] :: Exceeds(c[0], y)
    ensures forall x, y | x in c && y in s && y !in c :: Exceeds(x, y)
  {
    var t :| SortedPermutation(Ahead, s, t) && c == t[..Min3(|t|)];
    var t' :| SortedPermutation(Ahead, s', t') && c' == t'[..Min3(|t'|)];
    forall i, j | 0 <= i < |s| && 0 <= j < |s| && s[i] != s[j] ensures Ahead(s[i], s[j]) || Ahead(s[j], s[i]) {
      assert i < j || j < i;
    }
    TotalOnPermutation(Ahead, s, t);
    SortedIsUnique(Ahead, t, t');
    SameLength(s, t);
    forall x, y | x in c && y in s && y != x && (x == c[0] || y !in c) ensures Exceeds(x, y) {
      assert y in multiset(t);
      var i :| 0 <= i < |c| && c[i] == x && (x == c[0] ==> i == 0);
      var j :| 0 <= j < |t| && t[j] == y;
      assert j < |c| ==> t[j] == c[j] && c[j] in c;
      PrefixDominates(Ahead, t, i + 1, i, j);
      AheadExceeds(x, y);
    }
    assert c[0] in c;
  }

  /** The newer oplog or, with equal oplogs, the greater number. */
  predicate Exceeds(x: JsNode, y: JsNode) {
    || x.t > y.t
    || (x.t == y.t && x.i > y.i)
    || (x.t == y.t && x.i == y.i && x.number > y.number)
  }

  lemma AheadExceeds(x: JsNode, y: JsNode)
    ensures Ahead(x, y) <==> Exceeds(x, y)
  {}

  /** What getOplog resolves to: a node with its oplog or, after an error, a bare
      Timestamp, which has no oplog to compare. */
  datatype Fetched = Oplog(node: JsNode) | BareTimestamp

  /** The sort of the results; None when a comparison throws. */
  function TrySort(results: seq<Fetched>): Option<seq<Fetched>> {
    if results == [] then Some([])
    else
      var rest := TrySort(results[1..]);
      if rest.None? then None else TryInsert(results[0], rest.value)
  }

  function TryInsert(x: Fetched, sorted: seq<Fetched>): Option<seq<Fetched>> {
    if sorted == [] then Some([x])
    else if x.BareTimestamp? || sorted[0].BareTimestamp? then None
    else if !Ahead(sorted[0].node, x.node) then Some([x] + sorted)
    else
      var rest := TryInsert(x, sorted[1..]);
      if rest.None? then None else Some([sorted[0]] + rest.value)
  }

  function Oplogs(nodes: seq<JsNode>): seq<Fetched> {
    seq(|nodes|, i requires 0 <= i < |nodes| => Oplog(nodes[i]))
  }

  /** One failed getOplog among several nodes makes the sort throw: a choice is
      made exactly when all of them succeed, or there is only one node. */
  lemma {:induction false} ChoiceThrowsIff(results: seq<Fetched>)
    ensures TrySort(results).None? <==> |results| >= 2 && BareTimestamp in results
    ensures TrySort(results).Some? ==> |TrySort(results).value| == |results|
    ensures TrySort(results).Some? ==>
              (BareTimestamp in TrySort(results).value <==> BareTimestamp in results)
  {
    if results != [] {
      var x, rest := results[0], results[1..];
      assert results == [x] + rest;
      ChoiceThrowsIff(rest);
      if TrySort(rest).Some? { InsertThrowsIff(x, TrySort(rest).value); }
    }
  }

  lemma {:induction false} InsertThrowsIff(x: Fetched, sorted: seq<Fetched>)
    requires |sorted| >= 2 ==> BareTimestamp !in sorted
    ensures TryInsert(x, sorted).None? <==> sorted != [] && (x.BareTimestamp? || BareTimestamp in sorted)
    ensures TryInsert(x, sorted).Some? ==>
              && |TryInsert(x, sorted).value| == |sorted| + 1
              && (BareTimestamp in TryInsert(x, sorted).value <==> x.BareTimestamp? || BareTimestamp in sorted)
  {
    if sorted != [] {
      assert sorted == [sorted[0]] + sorted[1..];
      InsertThrowsIff(x, sorted[1..]);
    }
  }

  /** When it does not throw it is the sort ChoiceIsCanonical speaks of. */
  lemma {:induction false} SortOfOplogs(nodes: seq<JsNode>)
    ensures TrySort(Oplogs(nodes)) == Some(Oplogs(SortSeq(Ahead, nodes)))
  {
    if nodes == [] {
      assert Oplogs(nodes) == [];
    } else {
      SortOfOplogs(nodes[1..]);
      assert Oplogs(nodes)[1..] == Oplogs(nodes[1..]);
      InsertOfOplogs(nodes[0], SortSeq(Ahead, nodes[1..]));
    }
  }

  lemma {:induction false} InsertOfOplogs(x: JsNode, sorted: seq<JsNode>)
    ensures TryInsert(Oplog(x), Oplogs(sorted)) == Some(Oplogs(Insert(Ahead, x, sorted)))
  {
    if sorted == [] {
      assert Oplogs([]) == [] && Oplogs([x]) == [Oplog(x)];
      assert Insert(Ahead, x, []) == [x];
    } else if !Ahead(sorted[0], x) {
      assert Oplogs([x] + sorted) == [Oplog(x)] + Oplogs(sorted);
    } else {
      InsertOfOplogs(x, sorted[1..]);
      assert Oplogs(sorted)[1..] == Oplogs(sorted[1..]);
      var rest := Insert(Ahead, x, sorted[1..]);
      assert Oplogs([sorted[0]] + rest) == [Oplog(sorted[0])] + Oplogs(rest);
    }
  }

  /** Up to the tie-break the three programs rank oplog positions alike: the Go
      controller, the Java comparator within its range, and this script. */
  lemma ThreeOrdersAgree(r: MongoReport, s: MongoReport, x: Variable, y: Variable, a: JsNode, b: JsNode)
    requires r.lastSec < 0x8000_0000 && r.lastInc < 0x8000_0000 && s.lastSec < 0x8000_0000 && s.lastInc < 0x8000_0000
    requires (r.lastSec, r.lastInc) != (s.lastSec, s.lastInc)
    requires (x.second, x.inc) == (r.lastSec, r.lastInc) && (y.second, y.inc) == (s.lastSec, s.lastInc)
    requires (a.t, a.i) == (r.lastSec, r.lastInc) && (b.t, b.i) == (s.lastSec, s.lastInc)
    ensures Newer(r, s) <==> Before(x, y)
    ensures Newer(r, s) <==> Ahead(a, b)
  {
    NonNegativeAgrees(x, y);
  }

  // ----- The polling loop -----

  /** One replSetGetStatus: some member is PRIMARY, none is, or the call fails. */
  datatype Poll = SomePrimary | NoPrimary | StatusError

  function PrimariesIn(polls: seq<Poll>): nat {
    if polls == [] then 0
    else PrimariesIn(polls[..|polls| - 1]) + if polls[|polls| - 1].SomePrimary? then 1 else 0
  }

  /** polls ends in a stretch with six sightings of a primary and no poll
      without one; failed calls in between are ignored. */
  ghost predicate Stable(polls: seq<Poll>) {
    exists j | 0 <= j <= |polls| :: NoPrimary !in polls[j..] && PrimariesIn(polls[j..]) >= 6
  }

  /** The length of the current streak: sightings since the last NoPrimary. */
  function Streak(polls: seq<Poll>): nat {
    if polls == [] then 0
    else
      match polls[|polls| - 1]
      case SomePrimary => Streak(polls[..|polls| - 1]) + 1
      case NoPrimary => 0
      case StatusError => Streak(polls[..|polls| - 1])
  }

  lemma {:induction false} StreakBounds(polls: seq<Poll>, j: nat)
    requires j <= |polls| && NoPrimary !in polls[j..]
    ensures PrimariesIn(polls[j..]) <= Streak(polls)
  {
    if j < |polls| {
      var front := polls[..|polls| - 1];
      assert polls[j..] == front[j..] + [polls[|polls| - 1]];
      StreakBounds(front, j);
    }
  }

  lemma {:induction false} StreakIsAttained(polls: seq<Poll>) returns (j: nat)
    ensures j <= |polls| && NoPrimary !in polls[j..] && PrimariesIn(polls[j..]) == Streak(polls)
  {
    if polls == [] || polls[|polls| - 1].NoPrimary? {
      j := |polls|;
    } else {
      var front := polls[..|polls| - 1];
      j := StreakIsAttained(front);
      assert polls[j..] == front[j..] + [polls[|polls| - 1]];
      assert polls[j..][..|polls[j..]| - 1] == front[j..];
    }
  }

  /** The counter exceeds five exactly when the polls so far end stably. */
  lemma StableIffStreak(polls: seq<Poll>)
    ensures Stable(polls) <==> Streak(polls) > 5
  {
    if Stable(polls) {
      var j :| 0 <= j <= |polls| && NoPrimary !in polls[j..] && PrimariesIn(polls[j..]) >= 6;
      StreakBounds(polls, j);
    }
    var j := StreakIsAttained(polls);
  }

  /** The loop ends after the first poll at which the set has become stable,
      and goes on as long as it has not. */
  method PollUntilStable(polls: seq<Poll>) returns (done: bool, used: nat)
    ensures used <= |polls|
    ensures done ==> Stable(polls[..used]) && forall k | 0 <= k < used :: !Stable(polls[..k])
    ensures !done ==> forall k | 0 <= k <= |polls| :: !Stable(polls[..k])
  {
    var count := 0;
    used := 0;
    StableIffStreak(polls[..0]);
    while used < |polls|
      invariant used <= |polls|
      invariant count == Streak(polls[..used]) <= 5
      invariant forall k | 0 <= k <= used :: !Stable(polls[..k])
    {
      var poll := polls[used];
      assert polls[..used + 1][..used] == polls[..used];
      used := used + 1;
      StableIffStreak(polls[..used]);
      if poll.StatusError? { continue; }
      if poll.SomePrimary? {
        count := count + 1;
      } else {
        count := 0;
      }
      if count > 5 {
        return true, used;
      }
    }
    done := false;
  }
}

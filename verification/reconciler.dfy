/** MongoControl.java: an incremental reconciler. Reports accumulate in a map,
    each update cancels and reschedules one configuration task, and the task
    moves the replica set to the best three nodes by purging and putting roles. */
module Reconciler {
  import opened Candidates
  import opened Iteration
  import opened Options
  import opened Ordering
  import opened Text

  type int32 = n: int | -0x8000_0000 <= n < 0x8000_0000

  /** A Nomad variable with the node's time stamp. */
  datatype Variable = Variable(path: string, second: int32, inc: int32, host: string)

  // ----- The comparator -----

  /** 32-bit two's complement. */
  function Wrap32(n: int): int32 {
    var m := n % 0x1_0000_0000;
    if m >= 0x8000_0000 then m - 0x1_0000_0000 else m
  }

  /** String.compareTo */
  function CompareTo(a: string, b: string): int {
    if a == [] || b == [] then |a| - |b|
    else if a[0] != b[0] then a[0] as int - b[0] as int
    else CompareTo(a[1..], b[1..])
  }

  /** The lambda handed to sorted(); its first parameter is x. */
  function Compare(x: Variable, y: Variable): int {
    if y.second == x.second then
      if y.inc == x.inc then CompareTo(y.host, x.host) else Wrap32(y.inc - x.inc)
    else Wrap32(y.second - x.second)
  }

  predicate Before(x: Variable, y: Variable) {
    Compare(x, y) < 0
  }

  /** The order the comparator is meant to implement: later time stamps first,
      ties by descending host. */
  predicate Better(x: Variable, y: Variable) {
    if x.second == y.second then
      if x.inc == y.inc then StrLess(y.host, x.host) else x.inc > y.inc
    else x.second > y.second
  }

  lemma {:induction false} CompareToSign(a: string, b: string)
    ensures CompareTo(a, b) > 0 <==> StrLess(b, a)
    ensures CompareTo(a, b) < 0 <==> StrLess(a, b)
  {
    if a != [] && b != [] && a[0] == b[0] { CompareToSign(a[1..], b[1..]); }
  }

  /** The subtraction that decides does not overflow. */
  predicate NoOverflow(x: Variable, y: Variable) {
    if x.second != y.second then IsInt32(y.second - x.second)
    else IsInt32(y.inc - x.inc)
  }

  /** The comparator agrees with the intended order exactly when the deciding
      subtraction does not overflow. */
  lemma ComparatorBound(x: Variable, y: Variable)
    ensures (Before(x, y) <==> Better(x, y)) <==> NoOverflow(x, y)
  {
    CompareToSign(y.host, x.host);
  }

  predicate NonNegative(v: Variable) {
    v.second >= 0 && v.inc >= 0
  }

  lemma NonNegativeAgrees(x: Variable, y: Variable)
    requires NonNegative(x) && NonNegative(y)
    ensures Before(x, y) <==> Better(x, y)
  {
    ComparatorBound(x, y);
  }

  /** With a negative time stamp the comparator runs in a circle. */
  lemma OverflowBreaksTransitivity(path: string, host: string)
    ensures var a, b := Variable(path, -0x8000_0000, 0, host), Variable(path, 0, 0, host);
      var c := Variable(path, 0x7fff_ffff, 0, host);
      Before(c, b) && Before(b, a) && Before(a, c)
  {}

  lemma BetterIsStrictWeakOrder()
    ensures StrictWeakOrder(Better)
  {
    StrLessIsStrictWeakOrder();
  }

  /** On reports whose oplog position fits a non-negative int, this order is
      the Go controller's Less with the host in the place of the node name. */
  lemma AgreesWithGo(r: MongoReport, s: MongoReport, path: string, x: Variable, y: Variable)
    requires r.lastSec < 0x8000_0000 && r.lastInc < 0x8000_0000 && s.lastSec < 0x8000_0000 && s.lastInc < 0x8000_0000
    requires x == Variable(path, r.lastSec, r.lastInc, r.nodeName)
    requires y == Variable(path, s.lastSec, s.lastInc, s.nodeName)
    ensures Before(x, y) <==> Newer(r, s)
  {
    NonNegativeAgrees(x, y);
  }

  // ----- The best three -----

  type Members = map<string, Variable>

  /** Keys are hosts, time stamps are real ones, paths come from the watched prefix. */
  ghost predicate Sane(m: Members) {
    forall h | h in m :: m[h].host == h && SaneNode(m[h])
  }

  predicate SaneNode(v: Variable) {
    NonNegative(v) && "status/mongo" <= v.path
  }

  /** allMembers.values() in iteration order */
  function ValuesIn(m: Members, order: seq<string>): seq<Variable> {
    seq(|order|, i requires 0 <= i < |order| => if order[i] in m then m[order[i]] else Variable("", 0, 0, ""))
  }

  /** sorted(comparator).limit(3) */
  function Best(m: Members, order: seq<string>): seq<Variable> {
    var nodes := SortSeq(Before, ValuesIn(m, order));
    nodes[..Min3(|nodes|)]
  }

  function Hosts(vs: seq<Variable>): seq<string> {
    seq(|vs|, i requires 0 <= i < |vs| => vs[i].host)
  }

  /** The target, independently of any sorting: three known hosts, each better
      than every known host outside. */
  ghost predicate IsBestThree(m: Members, t: set<string>) {
    && |t| == 3
    && (forall h | h in t :: h in m)
    && (forall h, g | h in t && g in m && g !in t :: Better(m[h], m[g]))
  }

  lemma BestThreeIsUnique(m: Members, t: set<string>, t': set<string>)
    requires IsBestThree(m, t) && IsBestThree(m, t')
    ensures t == t'
  {
    if t != t' {
      var h := OneOutside(t, t');
      var g := OneOutside(t', t);
      BetterIsAsymmetric(m[h], m[g]);
    }
  }

  lemma OneOutside<T>(a: set<T>, b: set<T>) returns (x: T)
    requires |a| == |b| && a != b
    ensures x in a && x !in b
  {
    if a <= b { SubsetOfSameSize(a, b); }
    x :| x in a && x !in b;
  }

  lemma BetterIsAsymmetric(x: Variable, y: Variable)
    ensures !(Better(x, y) && Better(y, x))
  {
    StrLessIrreflexive(x.host);
    if StrLess(x.host, y.host) && StrLess(y.host, x.host) { StrLessTransitive(x.host, y.host, x.host); }
  }

  /** Sorting asks the comparator only about the elements at hand. */
  lemma {:induction false} SortSeqAgrees<T>(less: (T, T) -> bool, less': (T, T) -> bool, s: seq<T>)
    requires forall x, y | x in s && y in s :: less(x, y) == less'(x, y)
    ensures SortSeq(less, s) == SortSeq(less', s)
  {
    if s != [] {
      SortSeqAgrees(less, less', s[1..]);
      var t := SortSeq(less, s[1..]);
      forall x | x in t ensures x in s { assert x in multiset(s[1..]); assert x in s[1..]; }
      InsertAgrees(less, less', s[0], t);
    }
  }

  lemma {:induction false} InsertAgrees<T>(less: (T, T) -> bool, less': (T, T) -> bool, x: T, s: seq<T>)
    requires forall y | y in s :: less(y, x) == less'(y, x)
    ensures Insert(less, x, s) == Insert(less', x, s)
  {
    if s != [] { InsertAgrees(less, less', x, s[1..]); }
  }

  lemma ValuesAreKnown(m: Members, order: seq<string>)
    requires Sane(m) && KeyOrder(m, order)
    ensures |ValuesIn(m, order)| == |m|
    ensures forall v :: v in ValuesIn(m, order) <==> v.host in m && m[v.host] == v
    ensures forall i, j | 0 <= i < j < |order| :: ValuesIn(m, order)[i].host != ValuesIn(m, order)[j].host
  {
    OrderSize(m, order);
    var vs := ValuesIn(m, order);
    assert forall i | 0 <= i < |order| :: order[i] in order && vs[i] == m[order[i]];
    forall v ensures v in vs <==> v.host in m && m[v.host] == v {
      if v.host in m && m[v.host] == v {
        var i :| 0 <= i < |order| && order[i] == v.host;
        assert vs[i] == v;
      }
    }
  }

  ghost function HostSet(b: seq<Variable>): set<string> {
    set h | h in Hosts(b)
  }

  /** b lists the best three members from the best of all down. */
  ghost predicate TopOf(m: Members, b: seq<Variable>) {
    && |b| == 3
    && (forall v | v in b :: v.host in m && m[v.host] == v)
    && (forall i, j | 0 <= i < j < 3 :: b[i].host != b[j].host)
    && IsBestThree(m, HostSet(b))
    && (forall i, j | 0 <= i < j < 3 :: Better(b[i], b[j]))
    && (forall h | h in m && h != b[0].host :: Better(b[0], m[h]))
  }

  /** sorted().limit(3) picks the best three, best first, for every iteration
      order of the map. */
  lemma BestIsBestThree(m: Members, order: seq<string>)
    requires Sane(m) && KeyOrder(m, order) && |m| >= 3
    ensures TopOf(m, Best(m, order))
  {
    var t := SortedValues(m, order);
    TopThree(m, t);
    assert Best(m, order) == t[..3];
  }

  /** What sorted() makes of the values. */
  lemma SortedValues(m: Members, order: seq<string>) returns (t: seq<Variable>)
    requires Sane(m) && KeyOrder(m, order)
    ensures t == SortSeq(Before, ValuesIn(m, order)) && |t| == |m|
    ensures Sorted(Better, t) && TotalOn(Better, t)
    ensures forall v :: v in t <==> v.host in m && m[v.host] == v
    ensures forall i, j | 0 <= i < j < |t| :: t[i].host != t[j].host
  {
    var vs := ValuesIn(m, order);
    ValuesAreKnown(m, order);
    SortsAsIntended(vs);
    t := SortSeq(Before, vs);
    SameLength(vs, t);
    forall v ensures v in t <==> v in vs { assert v in t <==> v in multiset(t); }
    DistinctByPermuted((v: Variable) => v.host, vs, t);
    DistinctHostsNeverTie(t);
  }

  lemma SortsAsIntended(vs: seq<Variable>)
    requires forall v | v in vs :: NonNegative(v)
    ensures Sorted(Better, SortSeq(Before, vs))
  {
    forall x, y | x in vs && y in vs ensures Before(x, y) == Better(x, y) { NonNegativeAgrees(x, y); }
    SortSeqAgrees(Before, Better, vs);
    BetterIsStrictWeakOrder();
    SortSeqSorts(Better, vs);
  }

  lemma DistinctHostsNeverTie(t: seq<Variable>)
    requires forall i, j | 0 <= i < j < |t| :: t[i].host != t[j].host
    ensures TotalOn(Better, t)
  {
    forall i, j | 0 <= i < |t| && 0 <= j < |t| && t[i] != t[j] ensures Better(t[i], t[j]) || Better(t[j], t[i]) {
      assert i < j || j < i;
      StrLessTotal(t[i].host, t[j].host);
    }
  }

  lemma TopThree(m: Members, t: seq<Variable>)
    requires Sorted(Better, t) && TotalOn(Better, t) && |t| >= 3
    requires forall v :: v in t <==> v.host in m && m[v.host] == v
    requires forall h | h in m :: m[h].host == h
    requires forall i, j | 0 <= i < j < |t| :: t[i].host != t[j].host
    ensures TopOf(m, t[..3])
  {
    var b := t[..3];
    var target := HostSet(b);
    DistinctSize(Hosts(b));
    forall h, g | h in target && g in m && g !in target ensures Better(m[h], m[g]) {
      var i :| 0 <= i < 3 && Hosts(b)[i] == h;
      assert t[i] in t && m[g] in t;
      var j :| 0 <= j < |t| && t[j] == m[g];
      assert forall k | 0 <= k < 3 :: t[k].host == Hosts(b)[k] && Hosts(b)[k] in target;
      PrefixDominates(Better, t, 3, i, j);
    }
    forall i, j | 0 <= i < j < 3 ensures Better(b[i], b[j]) {
      PrefixDominates(Better, t, i + 1, i, j);
    }
    forall h | h in m && h != b[0].host ensures Better(b[0], m[h]) {
      assert m[h] in t;
      var j :| 0 <= j < |t| && t[j] == m[h];
      PrefixDominates(Better, t, 1, 0, j);
    }
    forall h | h in target ensures h in m {
      var i :| 0 <= i < 3 && Hosts(b)[i] == h;
      assert t[i] in t;
    }
  }

  // ----- One configuration run -----

  datatype Role = Primary | Secondary

  /** The Nomad commands sent, var purge and var put on roles/<node>/mongo, and
      whether they worked; a failure is only logged. */
  datatype Action =
    | Purge(host: string, nodeName: string, ok: bool)
    | PutRole(host: string, nodeName: string, role: Role, members: string, ok: bool)

  datatype Task = Pending(due: nat) | Cancelled | Started

  datatype Recon = Recon(
    all: Members,                // allMembers
    rs: Members,                 // replicaSet
    tasks: seq<Task>,            // everything ever scheduled
    configurer: Option<nat>,     // the index of the last scheduled task
    now: nat,
    actions: seq<Action>)

  const START := Recon(map[], map[], [], None, 0, [])

  /** node.Path.split("/")[1] */
  function NodeName(v: Variable): string {
    var parts := Split(v.path, '/');
    if |parts| > 1 then parts[1] else ""
  }

  /** Paths under the watched prefix always have the second part. */
  lemma NodeNameExists(v: Variable)
    requires SaneNode(v)
    ensures |Split(v.path, '/')| > 1
  {
    assert v.path == "status" + ['/'] + v.path[7..];
    SplitAtSeparator("status", v.path[7..], '/');
  }

  /** It is the second one. */
  lemma NodeNameIsSecondPart(v: Variable, first: string, name: string, rest: string)
    requires '/' !in first && '/' !in name
    requires v.path == first + "/" + name || v.path == first + "/" + name + "/" + rest
    ensures NodeName(v) == name
  {
    SplitOfConcat(first, name, '/');
    SplitAtSeparator(first, [], '/');
    SplitAtSeparator(name, [], '/');
    if v.path == first + "/" + name + "/" + rest { SplitOfConcat(first + "/" + name, rest, '/'); }
  }

  /** filter(h -> !drop.contains(h)) */
  function Without(s: seq<string>, drop: set<string>): seq<string> {
    if s == [] then []
    else Without(s[..|s| - 1], drop) + if s[|s| - 1] in drop then [] else [s[|s| - 1]]
  }

  lemma {:induction false} WithoutKeeps(s: seq<string>, drop: set<string>)
    ensures forall h :: h in Without(s, drop) <==> h in s && h !in drop
    ensures (forall i, j | 0 <= i < j < |s| :: s[i] != s[j]) ==> Distinct(Without(s, drop))
  {
    if s != [] {
      WithoutKeeps(s[..|s| - 1], drop);
      assert forall h :: h in s <==> h in s[..|s| - 1] || h == s[|s| - 1];
    }
  }

  ghost predicate Distinct(s: seq<string>) {
    forall i, j | 0 <= i < j < |s| :: s[i] != s[j]
  }

  function PutAll(m: Members, vs: seq<Variable>): Members {
    if vs == [] then m else PutAll(m, vs[..|vs| - 1])[vs[|vs| - 1].host := vs[|vs| - 1]]
  }

  lemma {:induction false} PutAllKeys(m: Members, vs: seq<Variable>)
    ensures forall h :: h in PutAll(m, vs) <==> h in m || h in Hosts(vs)
  {
    if vs != [] {
      var front, last := vs[..|vs| - 1], vs[|vs| - 1];
      PutAllKeys(m, front);
      assert Hosts(vs) == Hosts(front) + [last.host];
    }
  }

  /** vs[i] is the last report of its host. */
  ghost predicate IsLastReport(vs: seq<Variable>, i: int) {
    0 <= i < |vs| && forall j | i < j < |vs| :: vs[j].host != vs[i].host
  }

  /** The last report of a host is the one that stays; hosts that do not report
      keep theirs. */
  lemma {:induction false} LastReportWins(m: Members, vs: seq<Variable>)
    ensures forall h | h !in Hosts(vs) :: (h in PutAll(m, vs) <==> h in m) && (h in m ==> PutAll(m, vs)[h] == m[h])
    ensures forall i | IsLastReport(vs, i) :: vs[i].host in PutAll(m, vs) && PutAll(m, vs)[vs[i].host] == vs[i]
  {
    if vs != [] {
      var front, last := vs[..|vs| - 1], vs[|vs| - 1];
      LastReportWins(m, front);
      assert Hosts(vs) == Hosts(front) + [last.host];
      forall i | IsLastReport(vs, i) ensures vs[i].host in PutAll(m, vs) && PutAll(m, vs)[vs[i].host] == vs[i] {
        if i < |vs| - 1 { assert IsLastReport(front, i); }
      }
    }
  }

  lemma {:induction false} PutAllStaysSane(m: Members, vs: seq<Variable>)
    requires Sane(m) && forall v | v in vs :: SaneNode(v)
    ensures Sane(PutAll(m, vs))
  {
    if vs != [] { PutAllStaysSane(m, vs[..|vs| - 1]); }
  }

  function Purges(all: Members, removed: seq<string>, obeyed: set<string>): seq<Action> {
    seq(|removed|, i requires 0 <= i < |removed| =>
      Purge(removed[i], if removed[i] in all then NodeName(all[removed[i]]) else "", removed[i] in obeyed))
  }

  function Puts(all: Members, added: seq<string>, members: string, obeyed: set<string>): seq<Action> {
    seq(|added|, i requires 0 <= i < |added| =>
      PutRole(added[i], if added[i] in all then NodeName(all[added[i]]) else "", if i == 0 then Primary else Secondary,
              members, added[i] in obeyed))
  }

  function Removed(rsOrder: seq<string>, b: seq<Variable>): seq<string> {
    Without(rsOrder, set h | h in Hosts(b))
  }

  function Added(rs: Members, b: seq<Variable>): seq<string> {
    Without(Hosts(b), rs.Keys)
  }

  /** replicaSet after the puts of the target and the purges. */
  function FinalSet(rs: Members, rsOrder: seq<string>, b: seq<Variable>): Members {
    PutAll(rs, b) - set h | h in Removed(rsOrder, b)
  }

  /** The iteration orders of the maps, whether "nomad node status" could be
      run and read, and the hosts whose purge or put works. */
  datatype Chance = Chance(
    allOrder: seq<string>, rsOrder: seq<string>, finalOrder: seq<string>, statusOk: bool, obeyed: set<string>)

  ghost predicate Possible(r: Recon, o: Chance) {
    && KeyOrder(r.all, o.allOrder) && KeyOrder(r.rs, o.rsOrder)
    && KeyOrder(FinalSet(r.rs, o.rsOrder, Best(r.all, o.allOrder)), o.finalOrder)
  }

  /** configureCluster on the sorted and cut list b. When the node status
      throws, b has already been put into replicaSet and nothing else happens. */
  function Reconciled(r: Recon, b: seq<Variable>, o: Chance): Recon {
    if !o.statusOk then r.(rs := PutAll(r.rs, b))
    else
      var rs := FinalSet(r.rs, o.rsOrder, b);
      var members := Join(Hosts(ValuesIn(rs, o.finalOrder)), ';');
      r.(rs := rs,
         actions := r.actions + Purges(r.all, Removed(o.rsOrder, b), o.obeyed)
                    + Puts(r.all, Added(r.rs, b), members, o.obeyed))
  }

  function Configured(r: Recon, o: Chance): Recon {
    Reconciled(r, Best(r.all, o.allOrder), o)
  }

  ghost predicate Consistent(r: Recon) {
    && Sane(r.all) && Sane(r.rs)
    && forall h | h in r.rs :: h in r.all
  }

  /** removed and added list, once each, the difference between two sets. */
  ghost predicate IsDiff(before: set<string>, target: set<string>, removed: seq<string>, added: seq<string>) {
    && Distinct(removed) && Distinct(added)
    && (forall h :: h in removed <==> h in before && h !in target)
    && (forall h :: h in added <==> h in target && h !in before)
  }

  lemma DiffIsExact(r: Recon, b: seq<Variable>, rsOrder: seq<string>)
    requires Consistent(r) && TopOf(r.all, b) && KeyOrder(r.rs, rsOrder)
    ensures IsDiff(r.rs.Keys, HostSet(b), Removed(rsOrder, b), Added(r.rs, b))
    ensures FinalSet(r.rs, rsOrder, b).Keys == HostSet(b)
  {
    WithoutKeeps(rsOrder, HostSet(b));
    WithoutKeeps(Hosts(b), r.rs.Keys);
    PutAllKeys(r.rs, b);
  }

  lemma StaysConsistent(r: Recon, b: seq<Variable>, rsOrder: seq<string>)
    requires Consistent(r) && TopOf(r.all, b)
    ensures Sane(PutAll(r.rs, b)) && Sane(FinalSet(r.rs, rsOrder, b))
    ensures forall h | h in PutAll(r.rs, b) :: h in r.all
    ensures PutAll(r.rs, b).Keys == r.rs.Keys + HostSet(b)
  {
    PutAllKeys(r.rs, b);
    forall v | v in b ensures SaneNode(v) { assert r.all[v.host] == v; }
    PutAllStaysSane(r.rs, b);
    forall h | h in Hosts(b) ensures h in r.all {
      var i :| 0 <= i < |b| && Hosts(b)[i] == h;
      assert b[i] in b;
    }
  }

  lemma HostsOfValues(m: Members, order: seq<string>)
    requires Sane(m) && KeyOrder(m, order)
    ensures Hosts(ValuesIn(m, order)) == order
  {
    assert forall i | 0 <= i < |order| :: order[i] in order;
  }

  /** r1 is r after a run that reached its target: exactly the best three known
      hosts are in replicaSet; a purge was sent for exactly the old members
      outside the target and a put for exactly the target members that were not
      in before, once each, and every members string lists exactly the target. */
  ghost predicate Reached(r: Recon, r1: Recon, o: Chance) {
    && Consistent(r1)
    && r1 == r.(rs := r1.rs, actions := r1.actions)
    && IsBestThree(r.all, r1.rs.Keys)
    && KeyOrder(r1.rs, o.finalOrder)
    && exists removed, added :: Commands(r, r1, o, removed, added)
  }

  /** The commands of a run: purges for removed, then puts for added. */
  ghost predicate Commands(r: Recon, r1: Recon, o: Chance, removed: seq<string>, added: seq<string>) {
    && IsDiff(r.rs.Keys, r1.rs.Keys, removed, added)
    && r1.actions == r.actions + Purges(r.all, removed, o.obeyed)
                     + Puts(r.all, added, Join(o.finalOrder, ';'), o.obeyed)
  }

  /** Reconciler refinement: every run whose node status succeeds reaches the
      best three. */
  lemma ReconcilesToBestThree(r: Recon, o: Chance)
    requires Consistent(r) && |r.all| >= 3 && Possible(r, o) && o.statusOk
    ensures Reached(r, Configured(r, o), o)
  {
    var b := Best(r.all, o.allOrder);
    BestIsBestThree(r.all, o.allOrder);
    ReconciledToTop(r, b, o);
  }

  lemma ReconciledToTop(r: Recon, b: seq<Variable>, o: Chance)
    requires Consistent(r) && TopOf(r.all, b) && KeyOrder(r.rs, o.rsOrder) && o.statusOk
    requires KeyOrder(FinalSet(r.rs, o.rsOrder, b), o.finalOrder)
    ensures var r1 := Reconciled(r, b, o);
      && Consistent(r1) && r1 == r.(rs := r1.rs, actions := r1.actions) && r1.rs.Keys == HostSet(b)
      && Commands(r, r1, o, Removed(o.rsOrder, b), Added(r.rs, b))
      && KeyOrder(r1.rs, o.finalOrder)
  {
    DiffIsExact(r, b, o.rsOrder);
    StaysConsistent(r, b, o.rsOrder);
    HostsOfValues(FinalSet(r.rs, o.rsOrder, b), o.finalOrder);
  }

  /** Without a node status the target joins replicaSet, nobody leaves, and no
      role is put or purged. */
  lemma FailedRunOnlyAdds(r: Recon, o: Chance)
    requires Consistent(r) && |r.all| >= 3 && Possible(r, o) && !o.statusOk
    ensures OnlyAdded(r, Configured(r, o))
  {
    var b := Best(r.all, o.allOrder);
    BestIsBestThree(r.all, o.allOrder);
    StaysConsistent(r, b, o.rsOrder);
    assert IsBestThree(r.all, HostSet(b));
  }

  ghost predicate OnlyAdded(r: Recon, r1: Recon) {
    && Consistent(r1)
    && r1 == r.(rs := r1.rs)
    && exists target | IsBestThree(r.all, target) :: r1.rs.Keys == r.rs.Keys + target
  }

  lemma EmptyDiff(t: set<string>, removed: seq<string>, added: seq<string>)
    requires IsDiff(t, t, removed, added)
    ensures removed == [] && added == []
  {
    HeadIsIn(removed);
    HeadIsIn(added);
  }

  lemma HeadIsIn(s: seq<string>)
    ensures s == [] || s[0] in s
  {}

  /** Two runs on the same members, the first without a node status: the second
      finds nothing to add and sends nothing. */
  lemma FailedRunLosesRoles(r: Recon, o: Chance, o': Chance)
    requires Consistent(r) && |r.all| >= 3 && r.rs == map[]
    requires Possible(r, o) && !o.statusOk
    requires Possible(Configured(r, o), o') && o'.statusOk
    ensures Configured(Configured(r, o), o').actions == r.actions
    ensures |Configured(Configured(r, o), o').rs.Keys| == 3
  {
    FailedRunOnlyAdds(r, o);
    SecondRunIsSilent(r, Configured(r, o), o');
  }

  lemma SecondRunIsSilent(r: Recon, r1: Recon, o: Chance)
    requires Consistent(r1) && |r.all| >= 3 && r1.all == r.all && r1.actions == r.actions
    requires IsBestThree(r.all, r1.rs.Keys)
    requires Possible(r1, o) && o.statusOk
    ensures Configured(r1, o).actions == r.actions && |Configured(r1, o).rs.Keys| == 3
  {
    ReconcilesToBestThree(r1, o);
    var r2 := Configured(r1, o);
    BestThreeIsUnique(r.all, r1.rs.Keys, r2.rs.Keys);
    var removed, added :| Commands(r1, r2, o, removed, added);
    EmptyDiff(r2.rs.Keys, removed, added);
  }

  /** Purges come first, and nobody gets two commands. */
  ghost predicate Orderly(sent: seq<Action>) {
    forall i, j | 0 <= i < j < |sent| :: sent[i].host != sent[j].host && (sent[j].Purge? ==> sent[i].Purge?)
  }

  /** A purge goes to each host that leaves and a put to each that joins. */
  ghost predicate Addressed(before: set<string>, target: set<string>, sent: seq<Action>) {
    && (forall a | a in sent :: a.host in if a.Purge? then before - target else target - before)
    && (forall h | h in before - target :: exists a :: a in sent && a.Purge? && a.host == h)
    && (forall h | h in target - before :: exists a :: a in sent && a.PutRole? && a.host == h)
  }

  /** The first put says primary and the others secondary. */
  ghost predicate OnePrimary(sent: seq<Action>) {
    forall i | 0 <= i < |sent| && sent[i].PutRole? ::
      sent[i].role == if i == 0 || sent[i - 1].Purge? then Primary else Secondary
  }

  /** A command goes to the node named in the host's path and works as the
      environment decides; a put carries the given members string. */
  ghost predicate WellFormedAction(a: Action, all: Members, obeyed: set<string>, members: string) {
    && (a.ok <==> a.host in obeyed)
    && a.host in all && SecondPart(a.nodeName, all[a.host].path)
    && (a.PutRole? ==> a.members == members)
  }

  /** The commands a run sends, read off the commands themselves. */
  ghost predicate Sends(r: Recon, r1: Recon, o: Chance, sent: seq<Action>) {
    && Orderly(sent) && Addressed(r.rs.Keys, r1.rs.Keys, sent) && OnePrimary(sent)
    && forall a | a in sent :: WellFormedAction(a, r.all, o.obeyed, Join(o.finalOrder, ';'))
  }

  ghost predicate SecondPart(name: string, path: string) {
    var parts := Split(path, '/');
    |parts| > 1 && parts[1] == name
  }

  lemma SendsWhatIsDue(r: Recon, o: Chance)
    requires Consistent(r) && |r.all| >= 3 && Possible(r, o) && o.statusOk
    ensures var r1 := Configured(r, o);
      r.actions <= r1.actions && Sends(r, r1, o, r1.actions[|r.actions|..])
  {
    ReconcilesToBestThree(r, o);
    ReachedSends(r, Configured(r, o), o);
  }

  lemma ReachedSends(r: Recon, r1: Recon, o: Chance)
    requires Consistent(r) && Reached(r, r1, o)
    ensures r.actions <= r1.actions && Sends(r, r1, o, r1.actions[|r.actions|..])
  {
    var removed, added :| Commands(r, r1, o, removed, added);
    var p, q := Purges(r.all, removed, o.obeyed), Puts(r.all, added, Join(o.finalOrder, ';'), o.obeyed);
    SentAfter(r.actions, p, q);
    forall h | h in removed || h in added ensures h in r.all && |Split(r.all[h].path, '/')| > 1 {
      NodeNameExists(r.all[h]);
    }
    DiffIsOrderly(r.rs.Keys, r1.rs.Keys, removed, added, p, q);
    DiffIsAddressed(r.rs.Keys, r1.rs.Keys, removed, added, p, q);
    forall a | a in p + q ensures WellFormedAction(a, r.all, o.obeyed, Join(o.finalOrder, ';')) {
      if a in p {
        var i :| 0 <= i < |p| && p[i] == a;
        assert removed[i] in removed;
      } else {
        var i :| 0 <= i < |q| && q[i] == a;
        assert added[i] in added;
      }
    }
  }

  /** p goes to removed and q to added. */
  ghost predicate Goes(removed: seq<string>, added: seq<string>, p: seq<Action>, q: seq<Action>) {
    && |p| == |removed| && (forall i | 0 <= i < |p| :: p[i].Purge? && p[i].host == removed[i])
    && |q| == |added| && (forall i | 0 <= i < |q| :: q[i].PutRole? && q[i].host == added[i])
    && (forall i | 0 <= i < |q| :: q[i].role == if i == 0 then Primary else Secondary)
  }

  lemma DiffIsOrderly(before: set<string>, target: set<string>, removed: seq<string>, added: seq<string>,
                      p: seq<Action>, q: seq<Action>)
    requires IsDiff(before, target, removed, added) && Goes(removed, added, p, q)
    ensures Orderly(p + q) && OnePrimary(p + q)
  {
    forall i, j | 0 <= i < |p| && 0 <= j < |q| ensures p[i].host != q[j].host {
      assert removed[i] in removed && added[j] in added;
    }
  }

  lemma DiffIsAddressed(before: set<string>, target: set<string>, removed: seq<string>, added: seq<string>,
                        p: seq<Action>, q: seq<Action>)
    requires IsDiff(before, target, removed, added) && Goes(removed, added, p, q)
    ensures Addressed(before, target, p + q)
  {
    forall i | 0 <= i < |p| ensures p[i].host in before - target { assert removed[i] in removed; }
    forall i | 0 <= i < |q| ensures q[i].host in target - before { assert added[i] in added; }
    forall h | h in before - target ensures exists a :: a in p + q && a.Purge? && a.host == h {
      var i :| 0 <= i < |removed| && removed[i] == h;
      assert p[i] in p + q;
    }
    forall h | h in target - before ensures exists a :: a in p + q && a.PutRole? && a.host == h {
      var i :| 0 <= i < |added| && added[i] == h;
      assert q[i] in p + q;
    }
  }

  /** Read back, the members string of a run lists each host of the new replica
      set once and nothing else. */
  lemma MembersStringListsTheSet(r: Recon, o: Chance)
    requires Consistent(r) && |r.all| >= 3 && Possible(r, o) && o.statusOk
    requires forall h | h in r.all :: ';' !in h
    ensures var r1 := Configured(r, o);
      r.actions <= r1.actions && forall a | a in r1.actions[|r.actions|..] && a.PutRole? ::
        var hosts := Split(a.members, ';');
        Distinct(hosts) && forall h :: h in hosts <==> h in r1.rs
  {
    SendsWhatIsDue(r, o);
    ReconcilesToBestThree(r, o);
    assert o.finalOrder != [] by {
      OrderSize(Configured(r, o).rs, o.finalOrder);
    }
    SplitOfJoin(o.finalOrder, ';');
  }

  function PrimaryPuts(actions: seq<Action>): set<string> {
    set i | 0 <= i < |actions| && actions[i].PutRole? && actions[i].role == Primary :: actions[i].host
  }

  lemma PrimaryPutsOf(all: Members, removed: seq<string>, added: seq<string>, members: string, obeyed: set<string>)
    ensures PrimaryPuts(Purges(all, removed, obeyed) + Puts(all, added, members, obeyed))
         == if added == [] then {} else {added[0]}
  {
    var acts := Purges(all, removed, obeyed) + Puts(all, added, members, obeyed);
    if added != [] {
      assert acts[|removed|] == Puts(all, added, members, obeyed)[0];
    }
  }

  lemma SentAfter(before: seq<Action>, p: seq<Action>, q: seq<Action>)
    ensures before <= before + p + q && (before + p + q)[|before|..] == p + q
  {}

  lemma PrimaryPutsOfRun(r: Recon, b: seq<Variable>, o: Chance)
    requires Consistent(r) && TopOf(r.all, b)
    ensures r.actions <= Reconciled(r, b, o).actions
    ensures PrimaryPuts(Reconciled(r, b, o).actions[|r.actions|..]) ==
            if o.statusOk && Added(r.rs, b) != [] then {Added(r.rs, b)[0]} else {}
  {
    if o.statusOk {
      var members := Join(Hosts(ValuesIn(FinalSet(r.rs, o.rsOrder, b), o.finalOrder)), ';');
      var p, q := Purges(r.all, Removed(o.rsOrder, b), o.obeyed), Puts(r.all, Added(r.rs, b), members, o.obeyed);
      PrimaryPutsOf(r.all, Removed(o.rsOrder, b), Added(r.rs, b), members, o.obeyed);
      SentAfter(r.actions, p, q);
    }
  }

  /** What is kept first is the first that was to be kept. */
  lemma {:induction false} WithoutHead(s: seq<string>, drop: set<string>) returns (i: nat)
    requires Without(s, drop) != []
    ensures i < |s| && s[i] == Without(s, drop)[0] && s[i] !in drop
    ensures forall j | 0 <= j < i :: s[j] in drop
  {
    if Without(s[..|s| - 1], drop) == [] {
      WithoutKeeps(s[..|s| - 1], drop);
      assert forall j | 0 <= j < |s| - 1 :: s[j] in s[..|s| - 1];
      i := |s| - 1;
    } else {
      i := WithoutHead(s[..|s| - 1], drop);
    }
  }

  /** The first host added is better than every other one. */
  lemma FirstAddedLeads(r: Recon, b: seq<Variable>)
    requires Consistent(r) && TopOf(r.all, b) && Added(r.rs, b) != []
    ensures var added := Added(r.rs, b);
      added[0] in r.all && forall h | h in added && h != added[0] :: h in r.all && Better(r.all[added[0]], r.all[h])
  {
    var added := Added(r.rs, b);
    WithoutKeeps(Hosts(b), r.rs.Keys);
    var i := WithoutHead(Hosts(b), r.rs.Keys);
    assert b[i] in b;
    forall h | h in added && h != added[0] ensures h in r.all && Better(r.all[added[0]], r.all[h]) {
      var j :| 0 <= j < 3 && Hosts(b)[j] == h;
      assert b[j] in b;
    }
  }

  /** host is the best of the given hosts. */
  ghost predicate BestOf(all: Members, hosts: set<string>, host: string) {
    host in hosts && host in all && forall h | h in hosts && h != host :: h in all && Better(all[host], all[h])
  }

  /** Every run puts at most one new primary: none when its node status fails or
      nobody joins, and otherwise the best of the hosts that join. */
  lemma AtMostOneNewPrimary(r: Recon, o: Chance)
    requires Consistent(r) && |r.all| >= 3 && Possible(r, o)
    ensures var r1 := Configured(r, o);
      var joined, puts := r1.rs.Keys - r.rs.Keys, PrimaryPuts(r1.actions[|r.actions|..]);
      if o.statusOk && joined != {} then exists leader | BestOf(r.all, joined, leader) :: puts == {leader}
      else puts == {}
  {
    var b := Best(r.all, o.allOrder);
    BestIsBestThree(r.all, o.allOrder);
    PrimaryPutsOfRun(r, b, o);
    if o.statusOk {
      ReconciledToTop(r, b, o);
      JoinedLead(r, Reconciled(r, b, o), b, o);
    }
  }

  lemma JoinedLead(r: Recon, r1: Recon, b: seq<Variable>, o: Chance)
    requires Consistent(r) && TopOf(r.all, b) && IsDiff(r.rs.Keys, r1.rs.Keys, Removed(o.rsOrder, b), Added(r.rs, b))
    ensures r1.rs.Keys - r.rs.Keys == {} <==> Added(r.rs, b) == []
    ensures Added(r.rs, b) != [] ==> BestOf(r.all, r1.rs.Keys - r.rs.Keys, Added(r.rs, b)[0])
  {
    var added := Added(r.rs, b);
    HeadIsIn(added);
    assert forall h :: h in r1.rs.Keys - r.rs.Keys <==> h in added;
    if added != [] { FirstAddedLeads(r, b); }
  }

  ghost predicate Leads(all: Members, leader: string) {
    leader in all && forall h | h in all && h != leader :: Better(all[leader], all[h])
  }

  /** The first run, on an empty replicaSet, makes exactly one primary, the
      best of all known nodes. */
  lemma FirstRunHasOneLeader(r: Recon, o: Chance)
    requires Consistent(r) && |r.all| >= 3 && r.rs == map[]
    requires Possible(r, o) && o.statusOk
    ensures exists leader | Leads(r.all, leader) :: PrimaryPuts(Configured(r, o).actions[|r.actions|..]) == {leader}
  {
    var b := Best(r.all, o.allOrder);
    BestIsBestThree(r.all, o.allOrder);
    FirstLeader(r, b, o);
  }

  lemma FirstLeader(r: Recon, b: seq<Variable>, o: Chance)
    requires Consistent(r) && r.rs == map[] && TopOf(r.all, b) && o.statusOk
    ensures Leads(r.all, b[0].host)
    ensures PrimaryPuts(Reconciled(r, b, o).actions[|r.actions|..]) == {b[0].host}
  {
    PrimaryPutsOfRun(r, b, o);
    NothingDropped(Hosts(b));
    assert r.rs.Keys == {};
    assert Added(r.rs, b) == Hosts(b);
    assert b[0] in b;
  }

  lemma {:induction false} NothingDropped(s: seq<string>)
    ensures Without(s, {}) == s
  {
    if s != [] { NothingDropped(s[..|s| - 1]); }
  }

  // ----- Runs -----

  datatype Event =
    | Update(nodes: seq<Variable>)   // updateMembers
    | Elapse                         // a second passes
    | Fire(i: nat, chance: Chance)   // a scheduled task starts and runs to its end

  /** updateMembers: nodes are only ever added; a configured delay later the
      cluster is reconciled, replacing whatever was scheduled before. */
  function Updated(r: Recon, nodes: seq<Variable>): Recon {
    var all := PutAll(r.all, nodes);
    if |all| < 3 then r.(all := all)
    else
      var delay := if |all| > 5 then 0 else 30;
      r.(all := all, tasks := CancelLast(r) + [Pending(r.now + delay)], configurer := Some(|r.tasks|))
  }

  /** configurer.cancel(false): only a task that has not started is affected. */
  function CancelLast(r: Recon): seq<Task> {
    if r.configurer.Some? && r.configurer.value < |r.tasks| && r.tasks[r.configurer.value].Pending?
    then r.tasks[r.configurer.value := Cancelled] else r.tasks
  }

  ghost predicate Enabled(r: Recon, e: Event) {
    match e
    case Update(nodes) => forall v | v in nodes :: SaneNode(v)
    case Elapse => true
    case Fire(i, o) => i < |r.tasks| && r.tasks[i].Pending? && r.tasks[i].due <= r.now && Possible(r, o)
  }

  ghost function Step(r: Recon, e: Event): Recon {
    if !Enabled(r, e) then r
    else
      match e
      case Update(nodes) => Updated(r, nodes)
      case Elapse => r.(now := r.now + 1)
      case Fire(i, o) => Configured(r.(tasks := r.tasks[i := Started]), o)
  }

  ghost function Run(es: seq<Event>): Recon {
    if es == [] then START else Step(Run(es[..|es| - 1]), es[|es| - 1])
  }

  /** Hosts that hold a role: put with success and not purged with success since. */
  function Holders(actions: seq<Action>): set<string> {
    if actions == [] then {}
    else
      var a := actions[|actions| - 1];
      var front := Holders(actions[..|actions| - 1]);
      if !a.ok then front else if a.Purge? then front - {a.host} else front + {a.host}
  }

  lemma {:induction false} HoldersAppend(s: seq<Action>, t: seq<Action>, puts: bool)
    requires forall a | a in t :: a.PutRole? == puts
    ensures Holders(s + t) == if puts then Holders(s) + Hits(t) else Holders(s) - Hits(t)
  {
    if t == [] {
      assert s + t == s;
    } else {
      var front, last := t[..|t| - 1], t[|t| - 1];
      HoldersAppend(s, front, puts);
      assert (s + t)[..|s + t| - 1] == s + front;
      assert (s + t)[|s + t| - 1] == last && last in t;
      HitsNext(t);
      var before := Holders(s + front);
      assert last.ok ==> Holders(s + t) == if puts then before + {last.host} else before - {last.host};
    }
  }

  function Hits(t: seq<Action>): set<string> {
    set a | a in t && a.ok :: a.host
  }

  lemma HitsNext(t: seq<Action>)
    requires t != []
    ensures var last := t[|t| - 1]; Hits(t) == Hits(t[..|t| - 1]) + if last.ok then {last.host} else {}
  {
    assert forall a :: a in t <==> a in t[..|t| - 1] || a == t[|t| - 1];
  }

  lemma HoldersAfterDiff(
    actions: seq<Action>, all: Members, removed: seq<string>, added: seq<string>, members: string, obeyed: set<string>)
    ensures Holders(actions + Purges(all, removed, obeyed) + Puts(all, added, members, obeyed)) ==
              Holders(actions) - (set h | h in removed && h in obeyed) + (set h | h in added && h in obeyed)
  {
    var p, q := Purges(all, removed, obeyed), Puts(all, added, members, obeyed);
    HoldersAppend(actions, p, false);
    HoldersAppend(actions + p, q, true);
    assert Hits(p) == (set h | h in removed && h in obeyed) by {
      forall i | 0 <= i < |removed| ensures p[i].host == removed[i] && p[i].ok == (removed[i] in obeyed) && p[i] in p {}
    }
    assert Hits(q) == (set h | h in added && h in obeyed) by {
      forall i | 0 <= i < |added| ensures q[i].host == added[i] && q[i].ok == (added[i] in obeyed) && q[i] in q {}
    }
  }

  /** Hosts for which a purge failed. */
  function Resisted(actions: seq<Action>): set<string> {
    set a | a in actions && a.Purge? && !a.ok :: a.host
  }

  lemma ResistedAfterDiff(
    actions: seq<Action>, all: Members, removed: seq<string>, added: seq<string>, members: string, obeyed: set<string>)
    ensures Resisted(actions + Purges(all, removed, obeyed) + Puts(all, added, members, obeyed)) ==
              Resisted(actions) + (set h | h in removed && h !in obeyed)
  {
    var p, q := Purges(all, removed, obeyed), Puts(all, added, members, obeyed);
    assert Resisted(p) == (set h | h in removed && h !in obeyed) by {
      forall i | 0 <= i < |removed| ensures p[i].host == removed[i] && p[i].ok == (removed[i] in obeyed) && p[i] in p {}
    }
    assert Resisted(q) == {};
    assert Resisted(actions + p + q) == Resisted(actions) + Resisted(p) + Resisted(q);
  }

  ghost predicate Inv(r: Recon) {
    && Consistent(r)
    && OnlyLastIsPending(r.tasks, r.configurer)
    && (r.tasks != [] ==> |r.all| >= 3)
    && RolesAreKnown(r.actions, r.rs.Keys)
  }

  ghost predicate OnlyLastIsPending(tasks: seq<Task>, configurer: Option<nat>) {
    && (forall i | 0 <= i < |tasks| && tasks[i].Pending? :: configurer == Some(i))
    && (configurer.Some? ==> configurer.value == |tasks| - 1)
  }

  /** A host with a role outside the replica set is one whose purge failed. */
  ghost predicate RolesAreKnown(actions: seq<Action>, rs: set<string>) {
    Holders(actions) <= rs + Resisted(actions)
  }

  lemma PutAllGrows(m: Members, vs: seq<Variable>)
    ensures m.Keys <= PutAll(m, vs).Keys && |m| <= |PutAll(m, vs)|
  {
    PutAllKeys(m, vs);
    assert PutAll(m, vs).Keys == m.Keys + (PutAll(m, vs).Keys - m.Keys);
    assert |PutAll(m, vs).Keys| == |m.Keys| + |PutAll(m, vs).Keys - m.Keys|;
  }

  lemma UpdateKeepsInv(r: Recon, nodes: seq<Variable>)
    requires Inv(r) && forall v | v in nodes :: SaneNode(v)
    ensures Inv(Updated(r, nodes))
  {
    PutAllKeys(r.all, nodes);
    PutAllStaysSane(r.all, nodes);
    PutAllGrows(r.all, nodes);
    ReschedulingKeepsTasks(r, nodes);
  }

  lemma ReschedulingKeepsTasks(r: Recon, nodes: seq<Variable>)
    requires OnlyLastIsPending(r.tasks, r.configurer)
    ensures OnlyLastIsPending(Updated(r, nodes).tasks, Updated(r, nodes).configurer)
  {}

  lemma FireKeepsInv(r: Recon, i: nat, o: Chance)
    requires Inv(r) && i < |r.tasks| && Possible(r, o)
    ensures Inv(Configured(r.(tasks := r.tasks[i := Started]), o))
  {
    ConfiguredKeepsInv(r.(tasks := r.tasks[i := Started]), o);
  }

  lemma ConfiguredKeepsInv(r: Recon, o: Chance)
    requires Inv(r) && r.tasks != [] && Possible(r, o)
    ensures Inv(Configured(r, o))
  {
    if o.statusOk {
      ReconcilesToBestThree(r, o);
      ReachedKeepsInv(r, Configured(r, o), o);
    } else {
      FailedRunOnlyAdds(r, o);
      AddedKeepsInv(r, Configured(r, o));
    }
  }

  lemma ReachedKeepsInv(r: Recon, r1: Recon, o: Chance)
    requires Inv(r) && Reached(r, r1, o)
    ensures Inv(r1)
  {
    var removed, added :| Commands(r, r1, o, removed, added);
    HoldersAfterDiff(r.actions, r.all, removed, added, Join(o.finalOrder, ';'), o.obeyed);
    ResistedAfterDiff(r.actions, r.all, removed, added, Join(o.finalOrder, ';'), o.obeyed);
  }

  lemma AddedKeepsInv(r: Recon, r1: Recon)
    requires Inv(r) && OnlyAdded(r, r1)
    ensures Inv(r1)
  {
    var target :| IsBestThree(r.all, target) && r1.rs.Keys == r.rs.Keys + target;
  }

  lemma {:induction false} RunInvariant(es: seq<Event>)
    ensures Inv(Run(es))
  {
    if es != [] {
      var front, e := es[..|es| - 1], es[|es| - 1];
      RunInvariant(front);
      if Enabled(Run(front), e) {
        match e
        case Update(nodes) => UpdateKeepsInv(Run(front), nodes);
        case Elapse =>
        case Fire(i, o) => FireKeepsInv(Run(front), i, o);
      }
    }
  }

  /** In every run: the replica set only holds known members (so a removed host
      is always found), a host with a role outside it is one whose purge failed,
      at most one task is pending, and only the last one scheduled ever runs,
      when it is due and with at least three known members. */
  lemma ReconcilerInvariant(es: seq<Event>)
    ensures var r := Run(es);
      && r.rs.Keys <= r.all.Keys
      && Holders(r.actions) <= r.rs.Keys + Resisted(r.actions)
      && (forall i, j | 0 <= i < |r.tasks| && 0 <= j < |r.tasks| ::
            r.tasks[i].Pending? && r.tasks[j].Pending? ==> i == j)
      && (forall i: nat, o | Enabled(r, Fire(i, o)) ::
            |r.all| >= 3 && i == |r.tasks| - 1 && r.tasks[i].Pending? && r.tasks[i].due <= r.now)
  {
    RunInvariant(es);
  }

  /** What every update schedules: nothing below three members; from three on
      whatever was pending is cancelled and one new task is due thirty seconds
      later, or at once from six on. */
  lemma UpdateSchedules(es: seq<Event>, nodes: seq<Variable>)
    ensures var r, r1 := Run(es), Updated(Run(es), nodes);
      && r1 == r.(all := r1.all, tasks := r1.tasks, configurer := r1.configurer)
      && r1.all.Keys == r.all.Keys + (set h | h in Hosts(nodes))
      && (|r1.all| < 3 ==> r1.tasks == r.tasks && r1.configurer == r.configurer)
      && (|r1.all| >= 3 ==>
            && |r1.tasks| == |r.tasks| + 1 && r1.configurer == Some(|r.tasks|)
            && (|r1.all| in {3, 4, 5} ==> r1.tasks[|r.tasks|] == Pending(r.now + 30))
            && (|r1.all| >= 6 ==> r1.tasks[|r.tasks|] == Pending(r.now))
            && forall i | 0 <= i < |r.tasks| ::
                 r1.tasks[i] == if r.tasks[i].Pending? then Cancelled else r.tasks[i])
  {
    RunInvariant(es);
    PutAllKeys(Run(es).all, nodes);
  }

  // ----- Roles and replica set in step -----

  /** Exactly the members of the replica set hold a role. */
  ghost predicate InStep(r: Recon) {
    Holders(r.actions) == r.rs.Keys
  }

  /** A run towards the target changes nothing that then fails: with a node
      status, the commands for everybody who has to join or leave are obeyed;
      without one, nobody has to join. */
  predicate Harmless(rs: set<string>, target: set<string>, o: Chance) {
    if o.statusOk then (rs - target) + (target - rs) <= o.obeyed else target <= rs
  }

  /** Failed commands are logged and never repeated, and a failed node status
      leaves its target in replicaSet: a run keeps roles and replica set in step
      exactly when it is harmless, towards the best three known hosts. */
  lemma StaysInStepIff(r: Recon, o: Chance, target: set<string>)
    requires Consistent(r) && |r.all| >= 3 && Possible(r, o) && InStep(r) && IsBestThree(r.all, target)
    ensures InStep(Configured(r, o)) <==> Harmless(r.rs.Keys, target, o)
  {
    if o.statusOk {
      ReconcilesToBestThree(r, o);
      BestThreeIsUnique(r.all, target, Configured(r, o).rs.Keys);
      ReachedInStepIff(r, Configured(r, o), o);
    } else {
      FailedRunOnlyAdds(r, o);
      AddedInStepIff(r, Configured(r, o), target);
    }
  }

  lemma ReachedInStepIff(r: Recon, r1: Recon, o: Chance)
    requires Reached(r, r1, o) && InStep(r)
    ensures InStep(r1) <==> (r.rs.Keys - r1.rs.Keys) + (r1.rs.Keys - r.rs.Keys) <= o.obeyed
  {
    var removed, added :| Commands(r, r1, o, removed, added);
    HoldersAfterDiff(r.actions, r.all, removed, added, Join(o.finalOrder, ';'), o.obeyed);
    InStepAfterDiff(r.rs.Keys, r1.rs.Keys, removed, added, o.obeyed);
  }

  lemma InStepAfterDiff(
    before: set<string>, target: set<string>, removed: seq<string>, added: seq<string>, obeyed: set<string>)
    requires IsDiff(before, target, removed, added)
    ensures before - (set h | h in removed && h in obeyed) + (set h | h in added && h in obeyed) == target
       <==> (before - target) + (target - before) <= obeyed
  {
    var after := before - (set h | h in removed && h in obeyed) + (set h | h in added && h in obeyed);
    assert forall h :: h in after <==>
      (h in before && !(h !in target && h in obeyed)) || (h in target && h !in before && h in obeyed);
  }

  lemma AddedInStepIff(r: Recon, r1: Recon, target: set<string>)
    requires OnlyAdded(r, r1) && InStep(r) && IsBestThree(r.all, target)
    ensures InStep(r1) <==> target <= r.rs.Keys
  {
    var t :| IsBestThree(r.all, t) && r1.rs.Keys == r.rs.Keys + t;
    BestThreeIsUnique(r.all, t, target);
  }

  ghost predicate HarmlessEvent(r: Recon, e: Event) {
    e.Fire? && Enabled(r, e) ==>
      exists target | IsBestThree(r.all, target) :: Harmless(r.rs.Keys, target, e.chance)
  }

  ghost predicate HarmlessRun(es: seq<Event>) {
    es == [] || (HarmlessRun(es[..|es| - 1]) && HarmlessEvent(Run(es[..|es| - 1]), es[|es| - 1]))
  }

  ghost predicate AlwaysInStep(es: seq<Event>) {
    InStep(Run(es)) && (es == [] || AlwaysInStep(es[..|es| - 1]))
  }

  /** Over every run: roles and replica set agree after each event exactly when
      every configuration run was harmless. */
  lemma {:induction false} RolesMatchReplicaSet(es: seq<Event>)
    ensures AlwaysInStep(es) <==> HarmlessRun(es)
  {
    if es != [] {
      var front, e := es[..|es| - 1], es[|es| - 1];
      RolesMatchReplicaSet(front);
      RunInvariant(front);
      if AlwaysInStep(front) { StepInStepIff(Run(front), e); }
    }
  }

  lemma StepInStepIff(r: Recon, e: Event)
    requires Inv(r) && InStep(r)
    ensures InStep(Step(r, e)) <==> HarmlessEvent(r, e)
  {
    if e.Fire? && Enabled(r, e) {
      var target := BestThreeExists(r, e.chance);
      StaysInStepIff(r, e.chance, target);
      assert Step(r, e) == Configured(r, e.chance).(tasks := r.tasks[e.i := Started]);
      forall t | IsBestThree(r.all, t) ensures t == target { BestThreeIsUnique(r.all, t, target); }
    }
  }

  lemma BestThreeExists(r: Recon, o: Chance) returns (target: set<string>)
    requires Consistent(r) && |r.all| >= 3 && Possible(r, o)
    ensures IsBestThree(r.all, target)
  {
    BestIsBestThree(r.all, o.allOrder);
    target := HostSet(Best(r.all, o.allOrder));
  }

  // ----- The object -----

  /** The static state of MongoControl. */
  class MongoControl {
    var allMembers: Members
    var replicaSet: Members
    var tasks: seq<Task>
    var configurer: Option<nat>
    var now: nat
    var actions: seq<Action>

    ghost function State(): Recon
      reads this
    {
      Recon(allMembers, replicaSet, tasks, configurer, now, actions)
    }

    constructor ()
      ensures State() == START
    {
      allMembers, replicaSet, tasks, configurer, now, actions := map[], map[], [], None, 0, [];
    }

    method UpdateMembers(nodes: seq<Variable>)
      modifies this
      ensures State() == Updated(old(State()), nodes)
    {
      for i := 0 to |nodes|
        invariant allMembers == PutAll(old(allMembers), nodes[..i])
        invariant State() == old(State()).(all := allMembers)
      {
        assert nodes[..i + 1][..i] == nodes[..i];
        allMembers := allMembers[nodes[i].host := nodes[i]];
      }
      assert nodes[..|nodes|] == nodes;
      var delay := 0;
      if |allMembers| > 5 {
        delay := 0;
      } else if |allMembers| > 2 {
        delay := 30;
      }
      if |allMembers| < 3 { return; }
      if configurer.Some? && configurer.value < |tasks| && tasks[configurer.value].Pending? {
        tasks := tasks[configurer.value := Cancelled];
      }
      configurer := Some(|tasks|);
      tasks := tasks + [Pending(now + delay)];
    }

    /** The body of a scheduled task. */
    method ConfigureCluster(statusOk: bool, obeyed: set<string>) returns (ghost o: Chance)
      modifies this
      ensures o.statusOk == statusOk && o.obeyed == obeyed && Possible(old(State()), o)
      ensures State() == Configured(old(State()), o)
    {
      var allOrder := Keys(allMembers);
      var rsOrder := Keys(replicaSet);
      var nodes := Best(allMembers, allOrder);
      var removedNodes := Removed(rsOrder, nodes);
      var addedNodes := Added(replicaSet, nodes);
      ghost var before := State();
      for i := 0 to |nodes|
        invariant replicaSet == PutAll(before.rs, nodes[..i])
        invariant State() == before.(rs := replicaSet)
      {
        assert nodes[..i + 1][..i] == nodes[..i];
        replicaSet := replicaSet[nodes[i].host := nodes[i]];
      }
      assert nodes[..|nodes|] == nodes;
      var remaining := replicaSet - set h | h in removedNodes;
      var finalOrder := Keys(remaining);
      o := Chance(allOrder, rsOrder, finalOrder, statusOk, obeyed);
      if !statusOk { return; }
      PurgeRoles(removedNodes, obeyed);
      PutRoles(addedNodes, finalOrder, obeyed);
    }

    method PurgeRoles(removedNodes: seq<string>, obeyed: set<string>)
      modifies this
      ensures State() == old(State()).(rs := old(replicaSet) - (set h | h in removedNodes),
                                       actions := old(actions) + Purges(old(allMembers), removedNodes, obeyed))
    {
      for i := 0 to |removedNodes|
        invariant State() == old(State()).(rs := old(replicaSet) - (set h | h in removedNodes[..i]),
                                           actions := old(actions) + Purges(old(allMembers), removedNodes, obeyed)[..i])
      {
        var removed := removedNodes[i];
        var nodeName := if removed in allMembers then NodeName(allMembers[removed]) else "";
        actions := actions + [Purge(removed, nodeName, removed in obeyed)];
        replicaSet := replicaSet - {removed};
        assert forall h :: h in removedNodes[..i + 1] <==> h in removedNodes[..i] || h == removed;
      }
      assert removedNodes[..|removedNodes|] == removedNodes;
      ghost var purges := Purges(old(allMembers), removedNodes, obeyed);
      assert purges[..|removedNodes|] == purges;
    }

    method PutRoles(addedNodes: seq<string>, finalOrder: seq<string>, obeyed: set<string>)
      modifies this
      ensures State() == old(State()).(actions := old(actions)
                + Puts(old(allMembers), addedNodes, Join(Hosts(ValuesIn(old(replicaSet), finalOrder)), ';'), obeyed))
    {
      var members := Join(Hosts(ValuesIn(replicaSet, finalOrder)), ';');
      ghost var puts := Puts(old(allMembers), addedNodes, members, obeyed);
      for i := 0 to |addedNodes|
        invariant State() == old(State()).(actions := old(actions) + puts[..i])
      {
        var added := addedNodes[i];
        var nodeName := if added in allMembers then NodeName(allMembers[added]) else "";
        var mongoRole := if i == 0 then Primary else Secondary;
        actions := actions + [PutRole(added, nodeName, mongoRole, members, added in obeyed)];
        assert puts[..i + 1] == puts[..i] + [PutRole(added, nodeName, mongoRole, members, added in obeyed)];
      }
      assert puts[..|addedNodes|] == puts;
    }
  }
}

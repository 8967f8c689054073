/** The whole bootstrap as one step system: nodes publish reports under their
    own keys, the controller takes in snapshots and publishes one spec, and
    every delivery of that spec makes a member configure the set or wipe its
    data. Reports, snapshots, timers, deliveries, restarts and MongoDB's own
    configuration sync interleave freely; a disabled event changes nothing. */
module Bootstrap {
  import opened Candidates
  import opened Controller
  import opened Iteration
  import opened MemberCodec
  import opened MemberTask
  import opened MongodClient
  import opened Options
  import opened Ordering
  import opened PrimaryConfig
  import opened ReportStore
  import Text

  type Nodes = map<string, Node>

  datatype Cluster = Cluster(
    kv: Kv,
    ctrl: Ctrl,
    nodes: Nodes,
    delivered: set<Snapshot>,   // every snapshot the controller was handed
    source: Snapshot,           // the snapshot the stored spec was made from
    chosen: Snapshot)           // and the candidates it lists

  /** The fixed part: the key prefix, the configured set name, the nodes at the start. */
  datatype Setup = Setup(path: string, rsName: string, nodes: Nodes)

  ghost predicate ValidSetup(u: Setup) {
    u.rsName != "" && forall n | n in u.nodes :: u.nodes[n].wipes == u.nodes[n].halfWipes == 0 && !u.nodes[n].exitNotice
  }

  /** getOfflineStatus: a report names the set of the configuration found under
      the configured name, and no set and no oplog otherwise. */
  ghost predicate Reflects(u: Setup, nodes: Nodes, r: MongoReport) {
    && r.nodeName in nodes
    && match nodes[r.nodeName].world.config
       case Some(c) =>
         if c.id == u.rsName then r.replSetName == c.id && r.replSetId == c.setId else Blank(r)
       case None => Blank(r)
  }

  predicate Blank(r: MongoReport) {
    r.replSetName == "" && r.replSetId == "" && r.firstSec == r.firstInc == r.lastSec == r.lastInc == 0
  }

  datatype ClusterEvent =
    | Announce(report: MongoReport, session: string)
    | SessionLost(session: string)
    | Listed(items: Snapshot)
    | Control(event: Event)
    | Deliver(name: string, order: seq<int>, around: Surroundings)
    | Restart(name: string)   // the task reads its exit notice, panics and is started again
    | Sync(name: string)

  function SpecIn(c: Cluster): Spec
    requires c.ctrl.stored != []
  {
    c.ctrl.stored[|c.ctrl.stored| - 1]
  }

  /** The configuration of the spec's primary, if it has one. */
  function PrimaryConfigOf(c: Cluster): Option<Replset>
    requires c.ctrl.stored != []
  {
    var p := SpecIn(c).primary;
    if p in c.nodes then c.nodes[p].world.config else None
  }

  ghost predicate CanHappen(u: Setup, c: Cluster, e: ClusterEvent) {
    match e
    case Announce(r, _) => Reflects(u, c.nodes, r)
    case SessionLost(_) => true
    case Listed(items) => IsSnapshot(u.path, c.kv, items)
    case Control(ev) => !ev.Report?
    case Deliver(n, order, _) =>
      c.ctrl.stored != [] && n in c.nodes && KeyOrder(ParsedMembers(SpecIn(c).members), order)
    case Restart(n) => n in c.nodes && c.nodes[n].exitNotice
    case Sync(n) =>
      // MongoDB hands the primary's configuration to empty members and to
      // members of the same set.
      && c.ctrl.stored != [] && n in c.nodes && n != SpecIn(c).primary
      && PrimaryConfigOf(c).Some?
      && var mine, theirs := c.nodes[n].world.config, PrimaryConfigOf(c).value;
         mine.None? || (mine.value.id == theirs.id && mine.value.setId == theirs.setId)
  }

  ghost function Next(u: Setup, c: Cluster, e: ClusterEvent): Cluster {
    if !CanHappen(u, c, e) then c
    else
      match e
      case Announce(r, s) => c.(kv := Put(u.path, c.kv, r.nodeName, r, s))
      case SessionLost(s) => c.(kv := Expired(c.kv, s))
      case Listed(items) => c.(ctrl := Step(c.ctrl, Report(items)), delivered := c.delivered + {items})
      case Control(ev) => Controlled(c, ev)
      case Deliver(n, order, s) =>
        c.(nodes := c.nodes[n := Handle(c.nodes[n], n, u.rsName, SpecIn(c), order, s).1])
      case Restart(n) => c.(nodes := c.nodes[n := c.nodes[n].(exitNotice := false)])
      case Sync(n) =>
        c.(nodes := c.nodes[n := c.nodes[n].(world := c.nodes[n].world.(config := PrimaryConfigOf(c)))])
  }

  ghost function Controlled(c: Cluster, ev: Event): Cluster {
    var ctrl := Step(c.ctrl, ev);
    if ctrl.stored == c.ctrl.stored then c.(ctrl := ctrl)
    else if ev.Execute? && c.ctrl.queue != [] && c.ctrl.queue[0].args.Some? then
      c.(ctrl := ctrl, source := c.ctrl.queue[0].args.value, chosen := ev.oracle.sorted[..Min3(|ev.oracle.sorted|)])
    else c.(ctrl := ctrl)
  }

  ghost function Begin(u: Setup): Cluster {
    Cluster(map[], INITIAL, u.nodes, {}, [], [])
  }

  ghost function RunOf(u: Setup, es: seq<ClusterEvent>): Cluster {
    if es == [] then Begin(u) else Next(u, RunOf(u, es[..|es| - 1]), es[|es| - 1])
  }

  // ----- Invariants -----

  /** Names are distinct and every report shows its node as it was at the start. */
  ghost predicate Honest(u: Setup, s: Snapshot) {
    DistinctNames(s) && forall r | r in s :: Reflects(u, u.nodes, r)
  }

  /** Until a spec is stored nothing has touched the nodes, and the controller
      has only ever seen honest snapshots. */
  ghost predicate Quiet(u: Setup, c: Cluster) {
    && c.nodes == u.nodes
    && Keyed(u.path, c.kv)
    && (forall k | k in c.kv && c.kv[k].Stored? :: Reflects(u, u.nodes, c.kv[k].report))
    && (forall s | s in c.delivered :: Honest(u, s))
    && Traced(c.ctrl, c.delivered)
  }

  /** The stored spec lists the best three of an honest snapshot. */
  ghost predicate WellPublished(u: Setup, c: Cluster) {
    && Honest(u, c.source) && |c.source| >= 3
    && Selects(Newer, c.source, c.chosen) && |c.chosen| == 3
    && c.ctrl.stored == [SpecOf(c.chosen)]
  }

  ghost predicate Inv(u: Setup, c: Cluster) {
    && Once(c.ctrl)
    && c.nodes.Keys == u.nodes.Keys
    && (c.ctrl.stored == [] ==> Quiet(u, c))
    && (c.ctrl.stored != [] ==> WellPublished(u, c) && Preserved(c) && (SpecIn(c).replSetName != "" ==> Lineage(u, c)))
  }

  /** The primary has not been wiped, not even in part. */
  ghost predicate Preserved(c: Cluster)
    requires c.ctrl.stored != []
  {
    var p := SpecIn(c).primary;
    p in c.nodes && c.nodes[p].wipes == c.nodes[p].halfWipes == 0
  }

  /** The node holds no configuration of another set. */
  predicate Settled(spec: Spec, n: Node) {
    match n.world.config
    case None => true
    case Some(c) => c.id == "" || (c.id == spec.replSetName && c.setId == spec.replSetId)
  }

  /** The primary still is what it reported, and whoever was wiped, or came
      without foreign data, is settled for good. */
  ghost predicate Lineage(u: Setup, c: Cluster)
    requires c.ctrl.stored != []
  {
    var spec := SpecIn(c);
    && spec.primary in c.nodes
    && (match c.nodes[spec.primary].world.config
        case None => false
        case Some(cfg) => cfg.id == spec.replSetName && cfg.setId == spec.replSetId)
    && forall n | n in c.nodes && n in u.nodes :: Tame(spec, u.nodes[n], c.nodes[n])
  }

  predicate Tame(spec: Spec, start: Node, now: Node) {
    && now.wipes <= 1
    && (Settled(spec, start) ==> now.wipes == now.halfWipes == 0)
    && (Settled(spec, start) || now.wipes == 1 ==> Settled(spec, now))
  }

  /** Only the publishing step stores a spec. */
  lemma StoringPublishes(c: Ctrl, ev: Event, known: set<Snapshot>)
    requires Once(c) && Traced(c, known) && Step(c, ev).stored != c.stored
    ensures ev.Execute? && Enabled(c, ev) && Publishes(c)
    ensures c.queue[0].args.Some? && c.queue[0].args.value in known
    ensures SortedPermutation(Newer, c.queue[0].args.value, ev.oracle.sorted) && |ev.oracle.sorted| >= 3
    ensures Step(c, ev).stored == c.stored + [SpecOf(ev.oracle.sorted[..3])]
  {
    if Enabled(c, ev) && ev.Execute? {
      if Publishes(c) {
        assert c.queue[0] in c.queue;
        PublishEffect(c, ev.oracle);
      } else {
        QuietEffect(c, ev.oracle);
      }
    }
  }

  lemma StoringKeepsInv(u: Setup, c: Cluster, ev: Event)
    requires ValidSetup(u) && Inv(u, c) && c.ctrl.stored == []
    requires Step(c.ctrl, ev).stored != []
    ensures Inv(u, Controlled(c, ev))
  {
    StoringPublishes(c.ctrl, ev, c.delivered);
    StepKeepsOnce(c.ctrl, ev);
    var snapshot, sorted := c.ctrl.queue[0].args.value, ev.oracle.sorted;
    SameLength(snapshot, sorted);
    var c1 := Controlled(c, ev);
    assert c1.source == snapshot && c1.chosen == sorted[..3];
    assert Selects(Newer, snapshot, sorted[..3]);
    PrimaryIsNewest(snapshot, c1.chosen);
    assert c1.chosen[0] in c1.chosen;
    StartsWell(u, c1, c1.chosen[0]);
  }

  lemma StartsWell(u: Setup, c: Cluster, primary: MongoReport)
    requires ValidSetup(u) && c.nodes == u.nodes && c.ctrl.stored != []
    requires Reflects(u, u.nodes, primary)
    requires SpecIn(c).primary == primary.nodeName
    requires SpecIn(c).replSetName == primary.replSetName && SpecIn(c).replSetId == primary.replSetId
    ensures Preserved(c)
    ensures SpecIn(c).replSetName != "" ==> Lineage(u, c)
  {}

  /** Controller events after the spec is stored leave it alone. */
  lemma ControlKeepsInv(u: Setup, c: Cluster, ev: Event)
    requires ValidSetup(u) && Inv(u, c) && !ev.Report?
    ensures Inv(u, Controlled(c, ev))
  {
    StepKeepsOnce(c.ctrl, ev);
    if c.ctrl.stored == [] {
      if Step(c.ctrl, ev).stored != [] {
        StoringKeepsInv(u, c, ev);
      } else {
        StepKeepsTraced(c.ctrl, ev, c.delivered);
      }
    } else {
      assert Step(c.ctrl, ev).stored == c.ctrl.stored;
    }
  }

  lemma ListedKeepsInv(u: Setup, c: Cluster, items: Snapshot)
    requires ValidSetup(u) && Inv(u, c) && IsSnapshot(u.path, c.kv, items)
    ensures Inv(u, Next(u, c, Listed(items)))
  {
    StepKeepsOnce(c.ctrl, Report(items));
    if c.ctrl.stored == [] {
      SnapshotNamesAreDistinct(u.path, c.kv, items);
      StepKeepsTraced(c.ctrl, Report(items), c.delivered);
    }
  }

  lemma StoreKeepsInv(u: Setup, c: Cluster, e: ClusterEvent)
    requires ValidSetup(u) && Inv(u, c) && (e.Announce? || e.SessionLost?)
    ensures Inv(u, Next(u, c, e))
  {
    var c1 := Next(u, c, e);
    assert c1 == c.(kv := c1.kv);
    if c.ctrl.stored == [] {
      assert Quiet(u, c1);
    }
  }

  /** What handling a delivery can do to a node: the primary is not wiped and
      keeps its set; another member is left alone, or wiped, as a whole or in
      part, because it holds a set other than the spec's. */
  ghost predicate Effect(spec: Spec, name: string, n: Node, n1: Node) {
    if name == spec.primary then
      && n1.wipes == n.wipes && n1.halfWipes == n.halfWipes
      && (n.world.config.Some? && n.world.config.value.id != "" ==>
            && n1.world.config.Some?
            && n1.world.config.value.id == n.world.config.value.id
            && n1.world.config.value.setId == n.world.config.value.setId)
    else if n1.wipes == n.wipes && n1.halfWipes == n.halfWipes then n1.world.config == n.world.config
    else
      && !Settled(spec, n)
      && if n1.wipes == n.wipes then n1.world.config in {None, n.world.config}
         else n1.wipes == n.wipes + 1 && n1.halfWipes == n.halfWipes && n1.world.config.None?
  }

  lemma HandleHasEffect(spec: Spec, name: string, n: Node, rsName: string, order: seq<int>, s: Surroundings)
    requires KeyOrder(ParsedMembers(spec.members), order)
    ensures Effect(spec, name, n, Handle(n, name, rsName, spec, order, s).1)
  {
    WipesExactlyForeigners(n, name, rsName, spec, order, s);
    if name == spec.primary {
      if n.world.config.Some? && n.world.config.value.id != "" {
        IdentityIsKept(n, name, rsName, spec, order, s);
      }
    } else {
      MembersAreOnlyWiped(n, name, rsName, spec, order, s);
    }
  }

  lemma EffectKeepsInv(u: Setup, c: Cluster, name: string, now: Node)
    requires ValidSetup(u) && Inv(u, c) && c.ctrl.stored != [] && name in c.nodes
    requires Effect(SpecIn(c), name, c.nodes[name], now)
    ensures Inv(u, c.(nodes := c.nodes[name := now]))
  {
    if SpecIn(c).replSetName != "" {
      assert Tame(SpecIn(c), u.nodes[name], c.nodes[name]);
    }
  }

  lemma DeliverKeepsInv(u: Setup, c: Cluster, n: string, order: seq<int>, s: Surroundings)
    requires ValidSetup(u) && Inv(u, c) && c.ctrl.stored != [] && n in c.nodes
    requires KeyOrder(ParsedMembers(SpecIn(c).members), order)
    ensures Inv(u, Next(u, c, Deliver(n, order, s)))
  {
    HandleHasEffect(SpecIn(c), n, c.nodes[n], u.rsName, order, s);
    EffectKeepsInv(u, c, n, Handle(c.nodes[n], n, u.rsName, SpecIn(c), order, s).1);
  }

  /** A delivery to a member other than the primary changes its data by wiping
      or not at all. */
  lemma MembersAreOnlyWiped(n: Node, name: string, rsName: string, spec: Spec, order: seq<int>, s: Surroundings)
    requires KeyOrder(ParsedMembers(spec.members), order) && spec.primary != name
    ensures var n1 := Handle(n, name, rsName, spec, order, s).1;
      if n1.wipes > n.wipes then n1.world.config.None?
      else n1.world.config == n.world.config || (n1.halfWipes > n.halfWipes && n1.world.config.None?)
  {}

  lemma SyncKeepsInv(u: Setup, c: Cluster, n: string)
    requires ValidSetup(u) && Inv(u, c)
    ensures Inv(u, Next(u, c, Sync(n)))
  {
    if CanHappen(u, c, Sync(n)) && SpecIn(c).replSetName != "" {
      assert Tame(SpecIn(c), u.nodes[n], c.nodes[n]);
    }
  }

  lemma RestartKeepsInv(u: Setup, c: Cluster, n: string)
    requires ValidSetup(u) && Inv(u, c)
    ensures Inv(u, Next(u, c, Restart(n)))
  {
    if CanHappen(u, c, Restart(n)) && c.ctrl.stored != [] && SpecIn(c).replSetName != "" {
      assert Tame(SpecIn(c), u.nodes[n], c.nodes[n]);
    }
  }

  lemma NextKeepsInv(u: Setup, c: Cluster, e: ClusterEvent)
    requires ValidSetup(u) && Inv(u, c)
    ensures Inv(u, Next(u, c, e))
  {
    if CanHappen(u, c, e) {
      match e
      case Announce(_, _) => StoreKeepsInv(u, c, e);
      case SessionLost(_) => StoreKeepsInv(u, c, e);
      case Listed(items) => ListedKeepsInv(u, c, items);
      case Control(ev) => ControlKeepsInv(u, c, ev);
      case Deliver(n, order, s) => DeliverKeepsInv(u, c, n, order, s);
      case Restart(n) => RestartKeepsInv(u, c, n);
      case Sync(n) => SyncKeepsInv(u, c, n);
    }
  }

  lemma {:induction false} InvHolds(u: Setup, es: seq<ClusterEvent>)
    requires ValidSetup(u)
    ensures Inv(u, RunOf(u, es))
  {
    if es != [] {
      InvHolds(u, es[..|es| - 1]);
      NextKeepsInv(u, RunOf(u, es[..|es| - 1]), es[|es| - 1]);
    }
  }

  // ----- Theorems -----

  /** In every run, a node wiped as a whole or in part is never the primary, and
      if the snapshot the spec was made from holds a report of it, that report is
      no newer than the primary's: the newest data is never wiped. */
  lemma NewestDataSurvives(u: Setup, es: seq<ClusterEvent>, n: string)
    requires ValidSetup(u)
    requires var c := RunOf(u, es); n in c.nodes && (c.nodes[n].wipes > 0 || c.nodes[n].halfWipes > 0)
    ensures var c := RunOf(u, es);
      && c.ctrl.stored != [] && c.chosen != []
      && SpecIn(c).primary == c.chosen[0].nodeName != n
      && c.chosen[0] in c.source
      && forall r | r in c.source && r.nodeName == n :: Newer(c.chosen[0], r) && NoNewerOplog(r, c.chosen[0])
  {
    InvHolds(u, es);
    var c := RunOf(u, es);
    PrimaryIsNewest(c.source, c.chosen);
    assert c.chosen[0] in c.chosen;
  }

  /** The member job only runs on the nodes that the stored spec names. */
  ghost predicate Placed(c: Cluster, n: string) {
    && c.ctrl.stored != []
    && var names := NamesIn(Text.Split(SpecIn(c).members, ','));
       names.Some? && n in names.value
  }

  /** r is the report stored for its node. */
  ghost predicate HasReported(u: Setup, c: Cluster, r: MongoReport) {
    var k := KeyFor(u.path, r.nodeName);
    k in c.kv && c.kv[k].Stored? && c.kv[k].report == r
  }

  /** n is a member of another set than the spec's primary. */
  ghost predicate Foreign(c: Cluster, n: string) {
    && c.ctrl.stored != [] && n in c.nodes && n != SpecIn(c).primary
    && match c.nodes[n].world.config
       case None => false
       case Some(cfg) => cfg.id != "" && !OwnSet(SpecIn(c), cfg.id, cfg.setId)
  }

  /** From c to c1 r was stored and its node wiped, with the spec as before. */
  ghost predicate WipedAfterReport(u: Setup, c: Cluster, c1: Cluster, r: MongoReport) {
    var n := r.nodeName;
    && HasReported(u, c1, r) && n in c.nodes && n in c1.nodes && c1 == c.(kv := c1.kv, nodes := c1.nodes)
    && c1.nodes[n].wipes == c.nodes[n].wipes + 1 && c1.nodes[n].world.config.None?
  }

  /** The promise covers the reports of that snapshot only: from every run with
      a spec out, a named member of another set can report newer data than the
      primary's, and the next delivery wipes it all the same. */
  lemma LateReporterIsWiped(u: Setup, es: seq<ClusterEvent>, r: MongoReport) returns (more: seq<ClusterEvent>)
    requires var c := RunOf(u, es);
      && Placed(c, r.nodeName) && Foreign(c, r.nodeName) && Reflects(u, c.nodes, r)
      && c.chosen != [] && Newer(r, c.chosen[0])
    ensures WipedAfterReport(u, RunOf(u, es), RunOf(u, es + more), r)
  {
    var c, k := RunOf(u, es), KeyFor(u.path, r.nodeName);
    var session := if k in c.kv && c.kv[k].session != "" then c.kv[k].session else SessionOf(r);
    var order := SomeOrder(ParsedMembers(SpecIn(c).members));
    var announce, deliver := Announce(r, session), Deliver(r.nodeName, order, Favourable());
    LateDelivery(u, c, r, session, order);
    RunNext(u, es, announce);
    RunNext(u, es + [announce], deliver);
    SameRun(u, es, [announce], [deliver]);
    more := [announce] + [deliver];
  }

  lemma LateDelivery(u: Setup, c: Cluster, r: MongoReport, session: string, order: seq<int>)
    requires Foreign(c, r.nodeName) && Reflects(u, c.nodes, r)
    requires KeyOrder(ParsedMembers(SpecIn(c).members), order)
    requires var k := KeyFor(u.path, r.nodeName); k in c.kv ==> c.kv[k].session in {"", session}
    ensures var c1 := Next(u, c, Announce(r, session));
      WipedAfterReport(u, c, Next(u, c1, Deliver(r.nodeName, order, Favourable())), r)
  {
    ReportLands(u, c, r, session);
    ForeignerIsWiped(u, Next(u, c, Announce(r, session)), r.nodeName, order, Favourable());
  }

  /** A report under the session that holds the key replaces the stored one. */
  lemma ReportLands(u: Setup, c: Cluster, r: MongoReport, session: string)
    requires Reflects(u, c.nodes, r)
    requires var k := KeyFor(u.path, r.nodeName); k in c.kv ==> c.kv[k].session in {"", session}
    ensures var c1 := Next(u, c, Announce(r, session)); c1 == c.(kv := c1.kv) && HasReported(u, c1, r)
  {}

  /** Everything the environment is asked for works. */
  function Favourable(): Surroundings {
    Surroundings(Readable(0), true, true, Emptied, true, Answers(true, true, true, true, true, Birth(ZERO_ID, 0)))
  }

  /** From c to c1 only n has changed: it has been wiped as a whole. */
  ghost predicate WipedAlone(c: Cluster, c1: Cluster, n: string) {
    && c1 == c.(nodes := c1.nodes) && c1.nodes.Keys == c.nodes.Keys && n in c.nodes
    && c1.nodes[n].wipes == c.nodes[n].wipes + 1 && c1.nodes[n].world.config.None? && c1.nodes[n].exitNotice
    && forall m | m in c.nodes && m != n :: c1.nodes[m] == c.nodes[m]
  }

  lemma ForeignerIsWiped(u: Setup, c: Cluster, n: string, order: seq<int>, s: Surroundings)
    requires Foreign(c, n) && KeyOrder(ParsedMembers(SpecIn(c).members), order)
    requires s.status.Readable? && s.wiped.Emptied?
    ensures WipedAlone(c, Next(u, c, Deliver(n, order, s)), n)
  {
    DeliverEffect(u, c, n, order, s);
    WipedNode(c.nodes[n], n, u.rsName, SpecIn(c), order, s);
  }

  lemma WipedNode(n: Node, name: string, rsName: string, spec: Spec, order: seq<int>, s: Surroundings)
    requires KeyOrder(ParsedMembers(spec.members), order)
    requires StartsToWipe(n, name, spec, s) && s.wiped.Emptied?
    ensures var n1 := Handle(n, name, rsName, spec, order, s).1;
      n1.wipes == n.wipes + 1 && n1.world.config.None? && n1.exitNotice
  {}

  /** In every run whose published spec names a set, no node is wiped more than
      once, and a node that starts empty or in that set is not even wiped in
      part. */
  lemma WipedAtMostOnce(u: Setup, es: seq<ClusterEvent>, n: string)
    requires ValidSetup(u)
    requires var c := RunOf(u, es); c.ctrl.stored != [] && SpecIn(c).replSetName != "" && n in c.nodes
    ensures var c := RunOf(u, es);
      && n in u.nodes && c.nodes[n].wipes <= 1
      && (Settled(SpecIn(c), u.nodes[n]) ==> c.nodes[n].wipes == c.nodes[n].halfWipes == 0)
  {
    InvHolds(u, es);
    assert Tame(SpecIn(RunOf(u, es)), u.nodes[n], RunOf(u, es).nodes[n]);
  }

  /** A primary that reported no set has initiated one; n is another node. */
  ghost predicate FreshAndInitiated(c: Cluster, n: string) {
    && c.ctrl.stored != []
    && var spec := SpecIn(c);
       && spec.replSetName == "" && spec.primary != n
       && n in c.nodes && spec.primary in c.nodes
       && PrimaryConfigOf(c).Some? && PrimaryConfigOf(c).value.id != ""
  }

  /** And n has joined it. */
  ghost predicate FreshAndJoined(c: Cluster, n: string) {
    FreshAndInitiated(c, n) && c.nodes[n].world.config.Some? && c.nodes[n].world.config.value.id != ""
  }

  /** Then nothing bounds the wipes: redeliveries and syncs wipe the member k
      more times, for every k. */
  lemma {:induction false} FreshSpecWipesForever(u: Setup, es: seq<ClusterEvent>, n: string, k: nat)
    returns (more: seq<ClusterEvent>)
    requires FreshAndJoined(RunOf(u, es), n)
    ensures FreshAndJoined(RunOf(u, es + more), n)
    ensures RunOf(u, es + more).nodes[n].wipes == RunOf(u, es).nodes[n].wipes + k
    decreases k
  {
    if k == 0 {
      SameRun(u, es, [], []);
      return [];
    }
    var before := FreshSpecWipesForever(u, es, n, k - 1);
    var round := WipeRound(u, es + before, n);
    more := before + round;
    SameRun(u, es, before, round);
  }

  lemma SameRun(u: Setup, a: seq<ClusterEvent>, b: seq<ClusterEvent>, c: seq<ClusterEvent>)
    ensures RunOf(u, a + (b + c)) == RunOf(u, a + b + c)
    ensures RunOf(u, a + []) == RunOf(u, a)
  {
    assert a + (b + c) == a + b + c;
    assert a + [] == a;
  }

  /** One redelivery, the restart the wipe causes, and one sync. */
  lemma WipeRound(u: Setup, es: seq<ClusterEvent>, n: string) returns (round: seq<ClusterEvent>)
    requires FreshAndJoined(RunOf(u, es), n)
    ensures FreshAndJoined(RunOf(u, es + round), n)
    ensures RunOf(u, es + round).nodes[n].wipes == RunOf(u, es).nodes[n].wipes + 1
  {
    var c := RunOf(u, es);
    var order := SomeOrder(ParsedMembers(SpecIn(c).members));
    var deliver := Deliver(n, order, Favourable());
    OneMoreWipe(u, c, n, order, Favourable());
    RunNext(u, es, deliver);
    RunNext(u, es + [deliver], Restart(n));
    RunNext(u, es + [deliver] + [Restart(n)], Sync(n));
    round := [deliver, Restart(n), Sync(n)];
    assert es + round == es + [deliver] + [Restart(n)] + [Sync(n)];
  }

  lemma OneMoreWipe(u: Setup, c: Cluster, n: string, order: seq<int>, s: Surroundings)
    requires FreshAndJoined(c, n)
    requires KeyOrder(ParsedMembers(SpecIn(c).members), order)
    requires s.status.Readable? && s.wiped.Emptied?
    ensures var c3 := Next(u, Next(u, Next(u, c, Deliver(n, order, s)), Restart(n)), Sync(n));
      FreshAndJoined(c3, n) && c3.nodes[n].wipes == c.nodes[n].wipes + 1
  {
    ForeignerIsWiped(u, c, n, order, s);
    var c1 := Next(u, c, Deliver(n, order, s));
    RestartLeavesData(u, c1, n);
    SyncJoins(u, Next(u, c1, Restart(n)), n);
  }

  lemma RestartLeavesData(u: Setup, c: Cluster, n: string)
    requires FreshAndInitiated(c, n) && c.nodes[n].exitNotice
    ensures var c1 := Next(u, c, Restart(n));
      FreshAndInitiated(c1, n) && c1.nodes[n] == c.nodes[n].(exitNotice := false)
  {}

  lemma SyncJoins(u: Setup, c: Cluster, n: string)
    requires FreshAndInitiated(c, n) && c.nodes[n].world.config.None?
    ensures var c2 := Next(u, c, Sync(n));
      FreshAndJoined(c2, n) && c2.nodes[n].wipes == c.nodes[n].wipes
  {}

  lemma RunNext(u: Setup, es: seq<ClusterEvent>, e: ClusterEvent)
    ensures RunOf(u, es + [e]) == Next(u, RunOf(u, es), e)
  {
    assert (es + [e])[..|es|] == es;
  }

  lemma SomeOrder<K(!new), V>(m: map<K, V>) returns (order: seq<K>)
    ensures KeyOrder(m, order)
    decreases |m|
  {
    if m.Keys == {} {
      order := [];
    } else {
      var k :| k in m.Keys;
      var rest := m - {k};
      assert m.Keys == rest.Keys + {k};
      order := SomeOrder(rest);
      order := order + [k];
    }
  }

  // ----- Wiping is one-shot exactly for specs that name a set -----

  function WipesOf(c: Cluster, n: string): nat {
    if n in c.nodes then c.nodes[n].wipes else 0
  }

  /** However the run goes on, n is wiped at most once. */
  ghost predicate OneShot(u: Setup, es: seq<ClusterEvent>, n: string) {
    forall more :: WipesOf(RunOf(u, es + more), n) <= 1
  }

  /** The node is empty, or its configuration has a name as mongod demands. */
  predicate Named(n: Node) {
    n.world.config.None? || n.world.config.value.id != ""
  }

  /** n is a member the spec names besides the primary, and the primary is
      configured or can read the members string. */
  ghost predicate OrdinaryMember(c: Cluster, n: string) {
    && Placed(c, n) && n in c.nodes && SpecIn(c).primary in c.nodes && n != SpecIn(c).primary
    && Named(c.nodes[n]) && Named(c.nodes[SpecIn(c).primary])
    && (PrimaryConfigOf(c).None? ==> WellFormed(Text.Split(SpecIn(c).members, ',')))
  }

  /** For every run with a spec out and every member it names: the member can be
      wiped at most once in all continuations exactly when the spec names a set. */
  lemma WipingIsOneShotIff(u: Setup, es: seq<ClusterEvent>, n: string)
    requires ValidSetup(u) && OrdinaryMember(RunOf(u, es), n)
    ensures OneShot(u, es, n) <==> SpecIn(RunOf(u, es)).replSetName != ""
  {
    if SpecIn(RunOf(u, es)).replSetName != "" {
      forall more ensures WipesOf(RunOf(u, es + more), n) <= 1 {
        SpecStays(u, es, more);
        if n in RunOf(u, es + more).nodes { WipedAtMostOnce(u, es + more, n); }
      }
    } else {
      var more := CanBeWipedAgain(u, es, n, 2);
      assert WipesOf(RunOf(u, es + more), n) >= 2;
    }
  }

  lemma {:induction false} SpecStays(u: Setup, es: seq<ClusterEvent>, more: seq<ClusterEvent>)
    requires ValidSetup(u) && RunOf(u, es).ctrl.stored != []
    ensures RunOf(u, es + more).ctrl.stored == RunOf(u, es).ctrl.stored
  {
    if more == [] {
      assert es + more == es;
    } else {
      var front, e := more[..|more| - 1], more[|more| - 1];
      SpecStays(u, es, front);
      assert es + more == es + front + [e];
      RunNext(u, es + front, e);
      InvHolds(u, es + front);
      NextKeepsSpec(u, RunOf(u, es + front), e);
    }
  }

  lemma NextKeepsSpec(u: Setup, c: Cluster, e: ClusterEvent)
    requires Once(c.ctrl) && c.ctrl.stored != []
    ensures Next(u, c, e).ctrl.stored == c.ctrl.stored
  {
    match e
    case Listed(items) => StepKeepsOnce(c.ctrl, Report(items));
    case Control(ev) => StepKeepsOnce(c.ctrl, ev);
    case _ =>
  }

  /** With a spec that names no set, any member it names can be wiped k more
      times, for every k. */
  lemma CanBeWipedAgain(u: Setup, es: seq<ClusterEvent>, n: string, k: nat) returns (more: seq<ClusterEvent>)
    requires ValidSetup(u) && OrdinaryMember(RunOf(u, es), n) && SpecIn(RunOf(u, es)).replSetName == ""
    ensures WipesOf(RunOf(u, es + more), n) == WipesOf(RunOf(u, es), n) + k
  {
    var a := CanInitiate(u, es, n);
    var b := CanJoin(u, es + a, n);
    var d := FreshSpecWipesForever(u, es + a + b, n, k);
    SameRun(u, es + a, b, d);
    SameRun(u, es, a, b + d);
    more := a + (b + d);
  }

  /** A primary that reported no set reported no set id either. */
  lemma FreshSpecHasNoId(u: Setup, es: seq<ClusterEvent>)
    requires ValidSetup(u) && RunOf(u, es).ctrl.stored != [] && SpecIn(RunOf(u, es)).replSetName == ""
    ensures SpecIn(RunOf(u, es)).replSetId == ""
  {
    InvHolds(u, es);
    var c := RunOf(u, es);
    PrimaryIsNewest(c.source, c.chosen);
    assert c.chosen[0] in c.chosen;
  }

  /** One delivery to the primary, unless it is configured. */
  lemma CanInitiate(u: Setup, es: seq<ClusterEvent>, n: string) returns (more: seq<ClusterEvent>)
    requires ValidSetup(u) && OrdinaryMember(RunOf(u, es), n) && SpecIn(RunOf(u, es)).replSetName == ""
    ensures FreshAndInitiated(RunOf(u, es + more), n) && RunOf(u, es + more).nodes[n] == RunOf(u, es).nodes[n]
  {
    var c := RunOf(u, es);
    if PrimaryConfigOf(c).Some? {
      SameRun(u, es, [], []);
      more := [];
    } else {
      var order := SomeOrder(ParsedMembers(SpecIn(c).members));
      var deliver := Deliver(SpecIn(c).primary, order, Favourable());
      FreshSpecHasNoId(u, es);
      DeliveryInitiates(u, c, n, order, Favourable());
      RunNext(u, es, deliver);
      more := [deliver];
    }
  }

  lemma DeliveryInitiates(u: Setup, c: Cluster, n: string, order: seq<int>, s: Surroundings)
    requires u.rsName != "" && OrdinaryMember(c, n) && PrimaryConfigOf(c).None?
    requires SpecIn(c).replSetName == SpecIn(c).replSetId == ""
    requires KeyOrder(ParsedMembers(SpecIn(c).members), order)
    requires s.status.Readable? && s.answers.initiate && s.answers.readAdd && s.answers.add
    ensures var c1 := Next(u, c, Deliver(SpecIn(c).primary, order, s));
      FreshAndInitiated(c1, n) && c1.nodes[n] == c.nodes[n]
  {
    var p := SpecIn(c).primary;
    DeliverEffect(u, c, p, order, s);
    FreshPrimaryHandles(c.nodes[p], u.rsName, SpecIn(c), order, s);
  }

  /** One sync, unless the member has a set. */
  lemma CanJoin(u: Setup, es: seq<ClusterEvent>, n: string) returns (more: seq<ClusterEvent>)
    requires FreshAndInitiated(RunOf(u, es), n) && Named(RunOf(u, es).nodes[n])
    ensures FreshAndJoined(RunOf(u, es + more), n)
    ensures RunOf(u, es + more).nodes[n].wipes == RunOf(u, es).nodes[n].wipes
  {
    if RunOf(u, es).nodes[n].world.config.Some? {
      SameRun(u, es, [], []);
      more := [];
    } else {
      SyncJoins(u, RunOf(u, es), n);
      RunNext(u, es, Sync(n));
      more := [Sync(n)];
    }
  }

  // ----- Who is safe from now on -----

  function HalfWipesOf(c: Cluster, n: string): nat {
    if n in c.nodes then c.nodes[n].halfWipes else 0
  }

  /** However the run goes on, n is not wiped any more, not even in part. */
  ghost predicate SafeFromNowOn(u: Setup, es: seq<ClusterEvent>, n: string) {
    var c := RunOf(u, es);
    forall more :: var c1 := RunOf(u, es + more);
      WipesOf(c1, n) == WipesOf(c, n) && HalfWipesOf(c1, n) == HalfWipesOf(c, n)
  }

  /** For every run with a spec out and every member it names, whatever data the
      member has or reports: it is safe exactly when the spec names a set and the
      member does not belong to another one. */
  lemma SafeFromNowOnIff(u: Setup, es: seq<ClusterEvent>, n: string)
    requires ValidSetup(u) && OrdinaryMember(RunOf(u, es), n)
    ensures var c := RunOf(u, es);
      SafeFromNowOn(u, es, n) <==> SpecIn(c).replSetName != "" && !Foreign(c, n)
  {
    var c := RunOf(u, es);
    if SpecIn(c).replSetName == "" {
      var more := CanBeWipedAgain(u, es, n, 1);
      assert WipesOf(RunOf(u, es + more), n) != WipesOf(c, n);
    } else if Foreign(c, n) {
      var order := SomeOrder(ParsedMembers(SpecIn(c).members));
      var deliver := Deliver(n, order, Favourable());
      ForeignerIsWiped(u, c, n, order, Favourable());
      RunNext(u, es, deliver);
      assert WipesOf(RunOf(u, es + [deliver]), n) != WipesOf(c, n);
    } else {
      InvHolds(u, es);
      SettledIffNotForeign(u, c, n);
      forall more ensures WipesOf(RunOf(u, es + more), n) == WipesOf(c, n)
                       && HalfWipesOf(RunOf(u, es + more), n) == HalfWipesOf(c, n) {
        SettledForGood(u, es, more, n);
      }
    }
  }

  lemma SettledIffNotForeign(u: Setup, c: Cluster, n: string)
    requires Inv(u, c) && c.ctrl.stored != [] && SpecIn(c).replSetName != ""
    requires n in c.nodes && n != SpecIn(c).primary
    ensures Settled(SpecIn(c), c.nodes[n]) <==> !Foreign(c, n)
  {}

  /** n holds no configuration of another set and has been wiped just as before. */
  ghost predicate KeptSettled(c: Cluster, c1: Cluster, n: string)
    requires c.ctrl.stored != [] && n in c.nodes
  {
    && c1.ctrl.stored == c.ctrl.stored && n in c1.nodes
    && Settled(SpecIn(c), c1.nodes[n])
    && c1.nodes[n].wipes == c.nodes[n].wipes && c1.nodes[n].halfWipes == c.nodes[n].halfWipes
  }

  lemma NextKeepsSettled(u: Setup, c: Cluster, e: ClusterEvent, n: string)
    requires Inv(u, c) && c.ctrl.stored != [] && SpecIn(c).replSetName != ""
    requires n in c.nodes && n != SpecIn(c).primary && Settled(SpecIn(c), c.nodes[n])
    ensures KeptSettled(c, Next(u, c, e), n)
  {
    NextKeepsSpec(u, c, e);
    if CanHappen(u, c, e) && e.Deliver? {
      DeliverEffect(u, c, e.name, e.order, e.around);
      HandleHasEffect(SpecIn(c), e.name, c.nodes[e.name], u.rsName, e.order, e.around);
    }
  }

  lemma {:induction false} SettledForGood(u: Setup, es: seq<ClusterEvent>, more: seq<ClusterEvent>, n: string)
    requires ValidSetup(u) && RunOf(u, es).ctrl.stored != [] && SpecIn(RunOf(u, es)).replSetName != ""
    requires var c := RunOf(u, es); n in c.nodes && n != SpecIn(c).primary && Settled(SpecIn(c), c.nodes[n])
    ensures KeptSettled(RunOf(u, es), RunOf(u, es + more), n)
  {
    if more == [] {
      assert es + more == es;
    } else {
      var front, e := more[..|more| - 1], more[|more| - 1];
      SettledForGood(u, es, front, n);
      assert es + more == es + front + [e];
      RunNext(u, es + front, e);
      InvHolds(u, es + front);
      NextKeepsSettled(u, RunOf(u, es + front), e, n);
    }
  }

  // ----- The cluster comes to rest -----

  /** Under a spec that names a set: the primary is configured as the spec says,
      and no other member the spec names belongs to another set. */
  ghost predicate AtRest(u: Setup, c: Cluster) {
    && c.ctrl.stored != [] && SpecIn(c).replSetName != "" && SpecIn(c).primary in c.nodes
    && Idle(c.nodes[SpecIn(c).primary].world, u.rsName, SpecIn(c))
    && forall n | n in c.nodes && Placed(c, n) && n != SpecIn(c).primary :: Settled(SpecIn(c), c.nodes[n])
  }

  /** No delivery to a member whose status can be read changes anything. */
  ghost predicate DeliveriesAreIdle(u: Setup, c: Cluster)
    requires c.ctrl.stored != []
  {
    forall n, order, s: Surroundings | s.status.Readable? && (n == SpecIn(c).primary || Placed(c, n)) ::
      Next(u, c, Deliver(n, order, s)) == c
  }

  /** Rest is for good: whatever happens, the cluster stays at rest, and no
      readable delivery changes anything at all. */
  lemma RestIsForGood(u: Setup, es: seq<ClusterEvent>, more: seq<ClusterEvent>)
    requires ValidSetup(u) && AtRest(u, RunOf(u, es))
    ensures AtRest(u, RunOf(u, es + more)) && DeliveriesAreIdle(u, RunOf(u, es + more))
  {
    StaysAtRest(u, es, more);
    InvHolds(u, es + more);
    RestIsIdle(u, RunOf(u, es + more));
  }

  lemma RestIsIdle(u: Setup, c: Cluster)
    requires Inv(u, c) && AtRest(u, c)
    ensures DeliveriesAreIdle(u, c)
  {
    forall n, order, s: Surroundings | s.status.Readable? && (n == SpecIn(c).primary || Placed(c, n))
      ensures Next(u, c, Deliver(n, order, s)) == c
    {
      if CanHappen(u, c, Deliver(n, order, s)) { DeliveryAtRest(u, c, n, order, s); }
    }
  }

  lemma DeliveryAtRest(u: Setup, c: Cluster, n: string, order: seq<int>, s: Surroundings)
    requires Inv(u, c) && AtRest(u, c) && n in c.nodes && (n == SpecIn(c).primary || Placed(c, n))
    requires KeyOrder(ParsedMembers(SpecIn(c).members), order) && s.status.Readable?
    ensures Next(u, c, Deliver(n, order, s)) == c
  {
    if n == SpecIn(c).primary {
      IdleIsLeftAlone(c.nodes[n], n, u.rsName, SpecIn(c), order, s);
    } else {
      SettledIffNotForeign(u, c, n);
      OthersAreLeftAlone(c.nodes[n], n, u.rsName, SpecIn(c), order, s);
    }
    NothingToHandle(u, c, n, order, s);
  }

  lemma NothingToHandle(u: Setup, c: Cluster, n: string, order: seq<int>, s: Surroundings)
    requires c.ctrl.stored != [] && n in c.nodes && KeyOrder(ParsedMembers(SpecIn(c).members), order)
    requires Handle(c.nodes[n], n, u.rsName, SpecIn(c), order, s).1 == c.nodes[n]
    ensures Next(u, c, Deliver(n, order, s)) == c
  {
    DeliverEffect(u, c, n, order, s);
    assert c.nodes[n := c.nodes[n]] == c.nodes;
  }

  lemma IdleIsLeftAlone(n: Node, name: string, rsName: string, spec: Spec, order: seq<int>, s: Surroundings)
    requires KeyOrder(ParsedMembers(spec.members), order)
    requires spec.primary == name && Idle(n.world, rsName, spec) && s.status.Readable?
    ensures Handle(n, name, rsName, spec, order, s) == (Waiting, n)
  {
    var status := StatusOf(n.world.config, s.status.lastInc);
    assert Configure(n.world, rsName, spec, status, order, s.answers) == (Done, n.world);
  }

  lemma OthersAreLeftAlone(n: Node, name: string, rsName: string, spec: Spec, order: seq<int>, s: Surroundings)
    requires KeyOrder(ParsedMembers(spec.members), order)
    requires spec.primary != name && !StartsToWipe(n, name, spec, s) && s.status.Readable?
    ensures Handle(n, name, rsName, spec, order, s) == (Waiting, n)
  {}

  lemma {:induction false} StaysAtRest(u: Setup, es: seq<ClusterEvent>, more: seq<ClusterEvent>)
    requires ValidSetup(u) && AtRest(u, RunOf(u, es))
    ensures AtRest(u, RunOf(u, es + more))
  {
    if more == [] {
      assert es + more == es;
    } else {
      var front, e := more[..|more| - 1], more[|more| - 1];
      StaysAtRest(u, es, front);
      assert es + more == es + front + [e];
      RunNext(u, es + front, e);
      InvHolds(u, es + front);
      NextKeepsRest(u, RunOf(u, es + front), e);
    }
  }

  lemma NextKeepsRest(u: Setup, c: Cluster, e: ClusterEvent)
    requires Inv(u, c) && AtRest(u, c)
    ensures AtRest(u, Next(u, c, e))
  {
    var c1 := Next(u, c, e);
    NextKeepsSpec(u, c, e);
    NextKeepsIdle(u, c, e);
    forall n | n in c1.nodes && Placed(c1, n) && n != SpecIn(c1).primary ensures Settled(SpecIn(c1), c1.nodes[n]) {
      NextKeepsNames(u, c, e);
      NextKeepsSettled(u, c, e, n);
    }
  }

  lemma NextKeepsNames(u: Setup, c: Cluster, e: ClusterEvent)
    ensures Next(u, c, e).nodes.Keys == c.nodes.Keys
  {}

  lemma NextKeepsIdle(u: Setup, c: Cluster, e: ClusterEvent)
    requires Inv(u, c) && AtRest(u, c)
    ensures var p, c1 := SpecIn(c).primary, Next(u, c, e);
      p in c1.nodes && Idle(c1.nodes[p].world, u.rsName, SpecIn(c))
  {
    var p := SpecIn(c).primary;
    if CanHappen(u, c, e) && e.Deliver? && e.name == p {
      DeliverEffect(u, c, p, e.order, e.around);
      HandleKeepsIdle(c.nodes[p], u.rsName, SpecIn(c), e.order, e.around);
    } else {
      OnlyDeliveryMovesPrimary(u, c, e);
    }
  }

  lemma OnlyDeliveryMovesPrimary(u: Setup, c: Cluster, e: ClusterEvent)
    requires c.ctrl.stored != [] && SpecIn(c).primary in c.nodes
    requires CanHappen(u, c, e) && e.Deliver? ==> e.name != SpecIn(c).primary
    ensures var p, c1 := SpecIn(c).primary, Next(u, c, e);
      p in c1.nodes && c1.nodes[p].world == c.nodes[p].world
  {}

  /** Even the rewrite of a configuration mongod calls invalid leaves an idle
      primary idle. */
  lemma HandleKeepsIdle(n: Node, rsName: string, spec: Spec, order: seq<int>, s: Surroundings)
    requires KeyOrder(ParsedMembers(spec.members), order)
    requires Idle(n.world, rsName, spec) && n.world.config.Some? && n.world.config.value.id != ""
    ensures Idle(Handle(n, spec.primary, rsName, spec, order, s).1.world, rsName, spec)
  {
    match s.status
    case Readable(_) => IdleIsLeftAlone(n, spec.primary, rsName, spec, order, s);
    case OtherError =>
    case InvalidReplicaSetConfig =>
      if s.readConfig && s.accept { RewriteIsIdle(n.world, rsName, spec, order, s.answers); }
      else { RefusedRewriteKeeps(n, spec, order, s, rsName); }
  }

  lemma RefusedRewriteKeeps(n: Node, spec: Spec, order: seq<int>, s: Surroundings, rsName: string)
    requires KeyOrder(ParsedMembers(spec.members), order) && Idle(n.world, rsName, spec)
    requires n.world.config.Some? && n.world.config.value.id != "" && !(s.readConfig && s.accept)
    ensures Idle(Recover(n, spec, order, s).1.world, rsName, spec)
  {
    SameConfigIsIdle(n.world, Recover(n, spec, order, s).1.world, rsName, spec, order, s.answers);
  }

  /** The named members that belong to another set. */
  ghost function Unsettled(c: Cluster): set<string> {
    set n | n in c.nodes && Placed(c, n) && Foreign(c, n)
  }

  /** A spec that names a set and that the primary can read is out. */
  ghost predicate NamedSpecOut(c: Cluster) {
    c.ctrl.stored != [] && SpecIn(c).replSetName != "" && WellFormed(Text.Split(SpecIn(c).members, ','))
  }

  /** Rest can be reached from every run with such a spec out: one delivery to
      each member of another set, and one to the primary. */
  lemma CanComeToRest(u: Setup, es: seq<ClusterEvent>) returns (more: seq<ClusterEvent>)
    requires ValidSetup(u) && NamedSpecOut(RunOf(u, es))
    ensures AtRest(u, RunOf(u, es + more))
  {
    var wipes := AllCanSettle(u, es);
    var c := RunOf(u, es + wipes);
    var order := SomeOrder(ParsedMembers(SpecIn(c).members));
    var deliver := Deliver(SpecIn(c).primary, order, Favourable());
    InvHolds(u, es + wipes);
    PrimaryComesToRest(u, c, order);
    RunNext(u, es + wipes, deliver);
    SameRun(u, es, wipes, [deliver]);
    more := wipes + [deliver];
  }

  lemma AllCanSettle(u: Setup, es: seq<ClusterEvent>) returns (more: seq<ClusterEvent>)
    requires NamedSpecOut(RunOf(u, es))
    ensures NamedSpecOut(RunOf(u, es + more)) && Unsettled(RunOf(u, es + more)) == {}
    decreases |Unsettled(RunOf(u, es))|
  {
    var c := RunOf(u, es);
    if Unsettled(c) == {} {
      SameRun(u, es, [], []);
      more := [];
    } else {
      var deliver := OneCanSettle(u, c);
      RunNext(u, es, deliver);
      var rest := AllCanSettle(u, es + [deliver]);
      SameRun(u, es, [deliver], rest);
      more := [deliver] + rest;
    }
  }

  lemma OneCanSettle(u: Setup, c: Cluster) returns (deliver: ClusterEvent)
    requires NamedSpecOut(c) && Unsettled(c) != {}
    ensures var c1 := Next(u, c, deliver); NamedSpecOut(c1) && |Unsettled(c1)| < |Unsettled(c)|
  {
    var n :| n in Unsettled(c);
    var order := SomeOrder(ParsedMembers(SpecIn(c).members));
    deliver := Deliver(n, order, Favourable());
    OneMoreSettles(u, c, n, order);
  }

  lemma OneMoreSettles(u: Setup, c: Cluster, n: string, order: seq<int>)
    requires NamedSpecOut(c) && n in Unsettled(c) && KeyOrder(ParsedMembers(SpecIn(c).members), order)
    ensures var c1 := Next(u, c, Deliver(n, order, Favourable()));
      NamedSpecOut(c1) && |Unsettled(c1)| < |Unsettled(c)|
  {
    ForeignerIsWiped(u, c, n, order, Favourable());
    FewerUnsettled(c, Next(u, c, Deliver(n, order, Favourable())), n);
  }

  lemma FewerUnsettled(c: Cluster, c1: Cluster, n: string)
    requires NamedSpecOut(c) && n in Unsettled(c) && WipedAlone(c, c1, n)
    ensures NamedSpecOut(c1) && |Unsettled(c1)| < |Unsettled(c)|
  {
    forall m | m in Unsettled(c1) ensures m in Unsettled(c) && m != n {
      if m != n { assert c1.nodes[m] == c.nodes[m]; }
    }
    SmallerSet(Unsettled(c1), Unsettled(c), n);
  }

  lemma SmallerSet<T>(a: set<T>, b: set<T>, x: T)
    requires a <= b && x in b && x !in a
    ensures |a| < |b|
  {
    assert b == a + (b - a);
    assert |b| == |a| + |b - a|;
    assert x in b - a;
  }

  lemma PrimaryComesToRest(u: Setup, c: Cluster, order: seq<int>)
    requires Inv(u, c) && NamedSpecOut(c) && Unsettled(c) == {}
    requires KeyOrder(ParsedMembers(SpecIn(c).members), order)
    ensures AtRest(u, Next(u, c, Deliver(SpecIn(c).primary, order, Favourable())))
  {
    var p := SpecIn(c).primary;
    DeliverEffect(u, c, p, order, Favourable());
    LiveConfiguresToIdle(c.nodes[p], u.rsName, SpecIn(c), order);
    forall n | n in c.nodes && Placed(c, n) && n != p ensures Settled(SpecIn(c), c.nodes[n]) {
      SettledIffNotForeign(u, c, n);
      assert n !in Unsettled(c);
    }
  }

  lemma LiveConfiguresToIdle(n: Node, rsName: string, spec: Spec, order: seq<int>)
    requires KeyOrder(ParsedMembers(spec.members), order) && WellFormed(Text.Split(spec.members, ','))
    requires n.world.config.Some? && n.world.config.value.id != ""
    ensures Idle(Handle(n, spec.primary, rsName, spec, order, Favourable()).1.world, rsName, spec)
  {
    LiveCanBeConfigured(n.world, rsName, spec, order, Favourable().answers, 0);
    var w1 := Configure(n.world, rsName, spec, StatusOf(n.world.config, 0), order, Favourable().answers).1;
    Converges(n.world, rsName, spec, order, Favourable().answers, 0, w1);
  }

  // ----- The resulting configuration -----

  /** From snapshot to configuration: when the primary handles the stored spec
      without error, its live configuration assigns to each chosen candidate's
      id that candidate's address, and lists nobody else. */
  lemma ResultingConfiguration(u: Setup, es: seq<ClusterEvent>, order: seq<int>, a: Answers, inc: int, w1: World)
    requires ValidSetup(u)
    requires var c := RunOf(u, es);
      && c.ctrl.stored != [] && (forall r | r in c.chosen :: CleanReport(r)) && DistinctIds(MembersFor(c.chosen))
      && KeyOrder(ParsedMembers(SpecIn(c).members), order)
      && SpecIn(c).primary in c.nodes
      && var w := c.nodes[SpecIn(c).primary].world;
         Configure(w, u.rsName, SpecIn(c), StatusOf(w.config, inc), order, a) == (Done, w1)
    ensures w1.config.Some?
    ensures forall x :: Holds(ParsedMembers(LiveString(w1.config.value.members)), x)
                   <==> exists r | r in RunOf(u, es).chosen :: x == MemberFor(r)
    ensures Idle(w1, u.rsName, SpecIn(RunOf(u, es)))
  {
    InvHolds(u, es);
    var c := RunOf(u, es);
    var w := c.nodes[SpecIn(c).primary].world;
    StoredParses(w, u.rsName, SpecIn(c), order, a, inc, w1);
    Converges(w, u.rsName, SpecIn(c), order, a, inc, w1);
    SpecParsesExactly(c.chosen);
  }

  // ----- Whole runs from the start -----

  /** A controller event as a cluster event. */
  function Lift(e: Event): ClusterEvent {
    if e.Report? then Listed(e.candidates) else Control(e)
  }

  function LiftAll(es: seq<Event>): seq<ClusterEvent> {
    seq(|es|, i requires 0 <= i < |es| => Lift(es[i]))
  }

  /** The cluster's controller is in the given state, the store and the nodes
      are as before, and a stored spec lists the best three of the snapshot. */
  ghost predicate Mirrors(before: Cluster, c: Cluster, ctrl: Ctrl, snapshot: Snapshot) {
    && c.ctrl == ctrl && c.nodes == before.nodes && c.kv == before.kv
    && (ctrl.stored != [] ==> Selects(Newer, snapshot, c.chosen))
  }

  /** The controller inside the cluster does what it does alone, as long as it
      is handed a snapshot the store can list. */
  lemma {:induction false} LiftedRun(u: Setup, before: seq<ClusterEvent>, es: seq<Event>, snapshot: Snapshot)
    requires RunOf(u, before).ctrl == INITIAL && IsSnapshot(u.path, RunOf(u, before).kv, snapshot)
    requires OnlyReports(es, snapshot)
    ensures Mirrors(RunOf(u, before), RunOf(u, before + LiftAll(es)), Run(es), snapshot)
  {
    if es == [] {
      assert before + LiftAll(es) == before;
    } else {
      var front, e := es[..|es| - 1], es[|es| - 1];
      LiftedRun(u, before, front, snapshot);
      assert before + LiftAll(es) == before + LiftAll(front) + [Lift(e)];
      RunNext(u, before + LiftAll(front), Lift(e));
      assert e in es;
      OnlyKnows(front, snapshot);
      LiftedStep(u, RunOf(u, before), RunOf(u, before + LiftAll(front)), Run(front), e, snapshot);
    }
  }

  lemma OnlyKnows(es: seq<Event>, snapshot: Snapshot)
    requires OnlyReports(es, snapshot)
    ensures Once(Run(es)) && Traced(Run(es), {snapshot})
  {
    RunInvariant(es);
    TracedGrows(Run(es), Reported(es), {snapshot});
  }

  lemma LiftedStep(u: Setup, before: Cluster, c: Cluster, ctrl: Ctrl, e: Event, snapshot: Snapshot)
    requires Once(ctrl) && Traced(ctrl, {snapshot})
    requires IsSnapshot(u.path, before.kv, snapshot) && (e.Report? ==> e.candidates == snapshot)
    requires Mirrors(before, c, ctrl, snapshot)
    ensures Mirrors(before, Next(u, c, Lift(e)), Step(ctrl, e), snapshot)
  {
    if e.Report? {
      StepKeepsOnce(ctrl, e);
    } else {
      ControlledStep(c, e, snapshot);
    }
  }

  lemma ControlledStep(c: Cluster, e: Event, snapshot: Snapshot)
    requires Once(c.ctrl) && Traced(c.ctrl, {snapshot}) && !e.Report?
    requires c.ctrl.stored != [] ==> Selects(Newer, snapshot, c.chosen)
    ensures Mirrors(c, Controlled(c, e), Step(c.ctrl, e), snapshot)
  {
    if Step(c.ctrl, e).stored != c.ctrl.stored { StoringSelects(c, e, snapshot); }
  }

  lemma StoringSelects(c: Cluster, e: Event, snapshot: Snapshot)
    requires Once(c.ctrl) && Traced(c.ctrl, {snapshot}) && Step(c.ctrl, e).stored != c.ctrl.stored
    ensures !e.Report? && var c1 := Controlled(c, e);
      c1.ctrl == Step(c.ctrl, e) && c1.nodes == c.nodes && c1.kv == c.kv && Selects(Newer, snapshot, c1.chosen)
  {
    StoringPublishes(c.ctrl, e, {snapshot});
    assert Selects(Newer, snapshot, e.oracle.sorted[..3]);
  }

  function AnnounceAll(rs: Snapshot): seq<ClusterEvent> {
    seq(|rs|, i requires 0 <= i < |rs| => Announce(rs[i], SessionOf(rs[i])))
  }

  lemma {:induction false} AllAnnounce(u: Setup, rs: Snapshot)
    requires forall r | r in rs :: Reflects(u, u.nodes, r)
    ensures RunOf(u, AnnounceAll(rs)) == Begin(u).(kv := After(u.path, PublishAll(rs)))
  {
    if rs != [] {
      var n := |rs| - 1;
      AllAnnounce(u, rs[..n]);
      assert AnnounceAll(rs) == AnnounceAll(rs[..n]) + [Announce(rs[n], SessionOf(rs[n]))];
      RunNext(u, AnnounceAll(rs[..n]), Announce(rs[n], SessionOf(rs[n])));
      assert PublishAll(rs)[..n] == PublishAll(rs[..n]);
    }
  }

  /** Any three or more nodes that report as they are, under distinct names. */
  ghost predicate Reporters(u: Setup, rs: Snapshot) {
    && |rs| >= 3 && DistinctNames(rs)
    && forall r | r in rs :: Reflects(u, u.nodes, r)
  }

  ghost predicate CleanReports(rs: Snapshot) {
    forall r | r in rs :: CleanReport(r)
  }

  /** They can get a spec of their best three published, with nothing done to
      any node yet. */
  lemma SpecCanBePublished(u: Setup, rs: Snapshot) returns (es: seq<ClusterEvent>)
    requires ValidSetup(u) && Reporters(u, rs)
    ensures var c := RunOf(u, es);
      && c.nodes == u.nodes && Selects(Newer, rs, c.chosen) && |c.chosen| == 3 && c.ctrl.stored == [SpecOf(c.chosen)]
  {
    AllAnnounce(u, rs);
    AllAreListed(u.path, rs);
    var before := AnnounceAll(rs);
    var control, sorted := EverySnapshotCanBeDecided(rs);
    LiftedRun(u, before, control, rs);
    es := before + LiftAll(control);
    InvHolds(u, es);
  }

  lemma DeliverEffect(u: Setup, c: Cluster, n: string, order: seq<int>, s: Surroundings)
    requires c.ctrl.stored != [] && n in c.nodes && KeyOrder(ParsedMembers(SpecIn(c).members), order)
    ensures Next(u, c, Deliver(n, order, s))
         == c.(nodes := c.nodes[n := Handle(c.nodes[n], n, u.rsName, SpecIn(c), order, s).1])
  {}

  /** The primary of a fresh set initiates it on the first delivery. */
  lemma FreshPrimaryHandles(n: Node, rsName: string, spec: Spec, order: seq<int>, s: Surroundings)
    requires spec.replSetId == "" && WellFormed(Text.Split(spec.members, ','))
    requires n.world.config.None? && KeyOrder(ParsedMembers(spec.members), order)
    requires s.status.Readable? && s.answers.initiate && s.answers.readAdd && s.answers.add
    ensures var after := Handle(n, spec.primary, rsName, spec, order, s).1.world.config;
      after.Some? && after.value.id == rsName
  {
    FreshInitiates(n.world, rsName, spec, s.status.lastInc, order, s.answers);
  }

  /** Any three or more empty nodes: there are runs in which a chosen member
      that is not the primary is wiped k times, for every k. */
  lemma EmptyClusterCanBeWipedForever(u: Setup, rs: Snapshot, k: nat) returns (es: seq<ClusterEvent>, n: string)
    requires ValidSetup(u) && Reporters(u, rs) && CleanReports(rs)
    requires forall r | r in rs :: u.nodes[r.nodeName].world.config.None?
    ensures var c := RunOf(u, es);
      Placed(c, n) && n != SpecIn(c).primary && n in c.nodes && c.nodes[n].wipes == k
  {
    var published := SpecCanBePublished(u, rs);
    var c := RunOf(u, published);
    ChosenAreOrdinary(u, rs, c, 1);
    n := c.chosen[1].nodeName;
    assert Blank(c.chosen[0]);
    var more := CanBeWipedAgain(u, published, n, k);
    SpecStays(u, published, more);
    es := published + more;
    InvHolds(u, es);
  }

  /** Whoever is chosen after the primary is named by the spec. */
  lemma ChosenAreOrdinary(u: Setup, rs: Snapshot, c: Cluster, i: nat)
    requires Reporters(u, rs) && CleanReports(rs) && 1 <= i < 3
    requires c.nodes == u.nodes && Selects(Newer, rs, c.chosen) && |c.chosen| == 3
    requires c.ctrl.stored == [SpecOf(c.chosen)]
    ensures Placed(c, c.chosen[i].nodeName) && c.chosen[i].nodeName != SpecIn(c).primary
    ensures c.chosen[0] in rs && c.chosen[i] in rs
    ensures WellFormed(Text.Split(SpecIn(c).members, ','))
  {
    var cs := c.chosen;
    PrimaryIsNewest(rs, cs);
    ChosenNamesAreDistinct(rs, cs);
    SpecIsWellFormed(cs);
    NamesRoundTrip(cs, [cs[0].nodeName, cs[1].nodeName, cs[2].nodeName]);
    assert cs[0] in cs && cs[i] in cs;
  }

  /** A whole run against the newest data: whenever a chosen member belongs to
      another set than the primary, it can report newer data than the primary's
      after the spec is out, and be wiped. */
  lemma NewestDataCanBeLost(u: Setup, rs: Snapshot, chosen: Snapshot, i: nat, late: MongoReport)
    returns (es: seq<ClusterEvent>)
    requires ValidSetup(u) && Reporters(u, rs) && CleanReports(rs)
    requires Selects(Newer, rs, chosen) && |chosen| == 3 && 1 <= i < 3
    requires chosen[i].replSetName != "" && !OwnSet(SpecOf(chosen), chosen[i].replSetName, chosen[i].replSetId)
    requires late.nodeName == chosen[i].nodeName && Reflects(u, u.nodes, late) && Newer(late, chosen[0])
    ensures var c := RunOf(u, es);
      && c.chosen == chosen && Placed(c, late.nodeName) && HasReported(u, c, late)
      && late.nodeName in c.nodes && c.nodes[late.nodeName].wipes == 1
  {
    var published := SpecCanBePublished(u, rs);
    var c := RunOf(u, published);
    CanonicalSelection(rs, rs, c.chosen, chosen);
    ChosenAreOrdinary(u, rs, c, i);
    var more := LateReporterIsWiped(u, published, late);
    es := published + more;
  }

  lemma ChosenNamesAreDistinct(rs: Snapshot, chosen: Snapshot)
    requires DistinctNames(rs) && Selects(Newer, rs, chosen)
    ensures DistinctNames(chosen)
  {
    var t :| SortedPermutation(Newer, rs, t) && chosen == t[..Min3(|t|)];
    DistinctByPermuted((r: MongoReport) => r.nodeName, rs, t);
  }

  lemma SpecIsWellFormed(cs: Snapshot)
    requires cs != [] && forall c | c in cs :: CleanReport(c)
    ensures WellFormed(Text.Split(SpecOf(cs).members, ','))
  {
    SpecSplits(cs);
    forall e | e in SpecEntries(cs) ensures |Text.Split(e, ':')| >= 4 {
      var i :| 0 <= i < |cs| && SpecEntries(cs)[i] == e;
      SpecEntryParses(cs[i]);
    }
  }
}

/** memberTask (mongo.go) and checkWipeRequirment (mongo-control.go): what a
    member does with each delivery of the published spec. */
module MemberTask {
  import opened Iteration
  import opened MemberCodec
  import opened MongodClient
  import opened Options
  import opened PrimaryConfig
  import Text

  /** checkWipeRequirment, branch by branch. */
  predicate CheckWipe(spec: Spec, status: MongoStatus) {
    if status.replSetName == "" then false
    else if spec.replSetId != status.replSetId && spec.replSetId != "" then true
    else if spec.replSetName != status.replSetName then true
    else if spec.firstSec as int > status.lastInc then false
    else false
  }

  /** What GetMemberStatus yields: a status, the one command error memberTask
      knows, or any other error. */
  datatype StatusRead = Readable(lastInc: int) | InvalidReplicaSetConfig | OtherError

  /** What wipeDB achieves: it removes the entries of the data directory one by
      one and gives up at the first that cannot be removed. */
  datatype Emptying = Emptied | Halfway(configLost: bool) | Untouched

  /** The environment's part in handling one delivery. */
  datatype Surroundings = Surroundings(
    status: StatusRead,
    readConfig: bool,     // the recovery branch can read the configuration
    accept: bool,         // and mongod accepts what it sends
    wiped: Emptying,      // how far wipeDB gets
    restarted: bool,      // mongod came up again
    answers: Answers)

  /** The node: its mongod, how often its data directory was wiped, as a whole
      or in part, and whether a stopped mongod has left an exit notice in the
      task's channel. */
  datatype Node = Node(world: World, wipes: nat, halfWipes: nat, exitNotice: bool)

  /** Crashed: the task panicked. Its mongod data stays on disk. */
  datatype TaskOutcome = Waiting | Crashed

  ghost function Handle(n: Node, name: string, rsName: string, spec: Spec, order: seq<int>, s: Surroundings)
    : (TaskOutcome, Node)
    requires KeyOrder(ParsedMembers(spec.members), order)
  {
    var isPrimary := spec.primary == name;
    match s.status
    case OtherError => (Crashed, n)
    case InvalidReplicaSetConfig =>
      if !isPrimary then (Crashed, n) else Recover(n, spec, order, s)
    case Readable(lastInc) =>
      var status := StatusOf(n.world.config, lastInc);
      if isPrimary then
        var (o, w) := Configure(n.world, rsName, spec, status, order, s.answers);
        (if o.Panicked? then Crashed else Waiting, n.(world := w))
      else if CheckWipe(spec, status) then Wipe(n, s)
      else (Waiting, n)
  }

  /** The primary rewrites a configuration mongod calls invalid. When that
      works, the nil status is dereferenced right after. */
  ghost function Recover(n: Node, spec: Spec, order: seq<int>, s: Surroundings): (TaskOutcome, Node)
    requires KeyOrder(ParsedMembers(spec.members), order)
  {
    if !s.readConfig || n.world.config.None? then (Crashed, n)
    else
      OrderIsWithin(ParsedMembers(spec.members), order);
      var cfg := n.world.config.value.(members := InOrder(ParsedMembers(spec.members), order));
      (if s.accept then Crashed else Waiting, n.(world := Reconfigured(n.world, cfg, s.accept)))
  }

  /** mongod is stopped, its directory emptied and mongod started again. */
  function Wipe(n: Node, s: Surroundings): (TaskOutcome, Node) {
    match s.wiped
    case Untouched => (Crashed, n.(exitNotice := true))
    case Halfway(configLost) =>
      (Crashed, n.(world := if configLost then n.world.(config := None) else n.world,
                   halfWipes := n.halfWipes + 1, exitNotice := true))
    case Emptied =>
      (if s.restarted then Waiting else Crashed,
       n.(world := n.world.(config := None), wipes := n.wipes + 1, exitNotice := true))
  }

  /** The task object, driving one mongod. */
  class MongoMember {
    const nodeName: string
    const rsName: string
    const mongod: Mongod
    var wipes: nat
    var halfWipes: nat
    var exitNotice: bool

    ghost function State(): Node
      reads this, mongod
    {
      Node(mongod.State(), wipes, halfWipes, exitNotice)
    }

    constructor (nodeName: string, rsName: string, mongod: Mongod)
      ensures State() == Node(mongod.State(), 0, 0, false)
      ensures this.nodeName == nodeName && this.rsName == rsName && this.mongod == mongod
    {
      this.nodeName, this.rsName, this.mongod := nodeName, rsName, mongod;
      wipes, halfWipes, exitNotice := 0, 0, false;
    }

    method GetMemberStatus(lastInc: int) returns (status: MongoStatus)
      ensures status == StatusOf(mongod.config, lastInc)
      ensures status.lastInc == lastInc
      ensures mongod.config.None? ==> status.replSetId == status.replSetName == status.members == ""
      ensures mongod.config.Some? ==> var cfg := mongod.config.value;
        status.replSetId == cfg.setId && status.replSetName == cfg.id && status.members == LiveString(cfg.members)
    {
      if mongod.config.None? {
        return MongoStatus("", "", "", lastInc);
      }
      var config := mongod.config.value;
      var members := PrintLive(config.members);
      status := MongoStatus(config.setId, config.id, members, lastInc);
    }

    /** One delivery from the config channel. */
    method OnConfig(mongoConfig: Spec, s: Surroundings) returns (outcome: TaskOutcome, ghost order: seq<int>)
      modifies this, mongod
      ensures KeyOrder(ParsedMembers(mongoConfig.members), order)
      ensures (outcome, State()) == Handle(old(State()), nodeName, rsName, mongoConfig, order, s)
    {
      var isPrimary := mongoConfig.primary == nodeName;
      var desiredMember := ParseMembers(mongoConfig.members);
      var newMembers;
      newMembers, order := Values(desiredMember);
      if s.status.OtherError? { return Crashed, order; }
      if s.status.InvalidReplicaSetConfig? {
        if !isPrimary { return Crashed, order; }
        outcome := RewriteConfig(newMembers, mongoConfig, order, s);
        return outcome, order;
      }
      var memberStatus := GetMemberStatus(s.status.lastInc);
      if isPrimary {
        var configured;
        configured, order := ConfigPrimary(mongod, rsName, mongoConfig, memberStatus, s.answers);
        return if configured.Panicked? then Crashed else Waiting, order;
      }
      if CheckWipe(mongoConfig, memberStatus) {
        outcome := WipeDb(s);
        return outcome, order;
      }
      return Waiting, order;
    }

    method RewriteConfig(newMembers: seq<Member>, ghost spec: Spec, ghost order: seq<int>, s: Surroundings)
      returns (outcome: TaskOutcome)
      requires KeyOrder(ParsedMembers(spec.members), order) && Within(ParsedMembers(spec.members), order)
      requires newMembers == InOrder(ParsedMembers(spec.members), order)
      modifies mongod
      ensures (outcome, State()) == Recover(old(State()), spec, order, s)
    {
      if !s.readConfig || mongod.config.None? { return Crashed; }
      var ok := mongod.ReplSetReconfig(mongod.config.value.(members := newMembers), s.accept);
      return if ok then Crashed else Waiting;
    }

    method WipeDb(s: Surroundings) returns (outcome: TaskOutcome)
      modifies this, mongod
      ensures (outcome, State()) == Wipe(old(State()), s)
    {
      exitNotice := true;
      if s.wiped.Untouched? { return Crashed; }
      if s.wiped.Halfway? {
        if s.wiped.configLost { mongod.config := None; }
        halfWipes := halfWipes + 1;
        return Crashed;
      }
      wipes := wipes + 1;
      mongod.config := None;
      return if s.restarted then Waiting else Crashed;
    }
  }

  // ----- Properties of one delivery -----

  /** A delivery starts to wipe exactly when the node is not the primary, its
      status can be read, it belongs to a set, and that set is not the spec's. */
  predicate StartsToWipe(n: Node, name: string, spec: Spec, s: Surroundings) {
    && spec.primary != name && s.status.Readable?
    && n.world.config.Some? && n.world.config.value.id != ""
    && !OwnSet(spec, n.world.config.value.id, n.world.config.value.setId)
  }

  /** And it counts as a wipe, or as half of one, by how far wipeDB gets. */
  lemma WipesExactlyForeigners(n: Node, name: string, rsName: string, spec: Spec, order: seq<int>, s: Surroundings)
    requires KeyOrder(ParsedMembers(spec.members), order)
    ensures var n1 := Handle(n, name, rsName, spec, order, s).1;
      && n1.wipes == n.wipes + (if StartsToWipe(n, name, spec, s) && s.wiped.Emptied? then 1 else 0)
      && n1.halfWipes == n.halfWipes + (if StartsToWipe(n, name, spec, s) && s.wiped.Halfway? then 1 else 0)
  {}

  /** The spec speaks of the set called name with this id, or gives no id. */
  predicate OwnSet(spec: Spec, name: string, setId: string) {
    spec.replSetName == name && (spec.replSetId == "" || spec.replSetId == setId)
  }

  /** A status that cannot be read ends the task, except when the primary's
      rewrite of an invalid configuration is itself refused. */
  lemma UnreadableStatusCrashes(n: Node, name: string, rsName: string, spec: Spec, order: seq<int>, s: Surroundings)
    requires KeyOrder(ParsedMembers(spec.members), order)
    requires !s.status.Readable?
    ensures Handle(n, name, rsName, spec, order, s).0.Waiting? <==>
      && s.status.InvalidReplicaSetConfig? && spec.primary == name
      && s.readConfig && n.world.config.Some? && !s.accept
  {}

  /** The rewrite of an invalid configuration puts the spec's members into the
      stored document, and nothing else but the next version; when mongod takes
      it, the primary needs no further configuring. */
  lemma RecoveryInstallsTheSpec(n: Node, rsName: string, spec: Spec, order: seq<int>, s: Surroundings)
    requires KeyOrder(ParsedMembers(spec.members), order)
    requires s.status.InvalidReplicaSetConfig? && s.readConfig && n.world.config.Some?
    ensures var n1 := Handle(n, spec.primary, rsName, spec, order, s).1;
      && n1 == n.(world := n1.world)
      && exists ms | ParsedMembers(LiveString(ms)) == ById(ms) == ParsedMembers(spec.members)
                     && |ms| == |ParsedMembers(spec.members)| ::
           var cfg := n.world.config.value;
           var next := cfg.(members := ms, version := cfg.version + 1);
           n1.world == World(Some(if s.accept then next else cfg), n.world.sent + [Reconfig(next)])
    ensures s.accept && n.world.config.value.id != "" && WellFormed(Text.Split(spec.members, ',')) ==>
      Idle(Handle(n, spec.primary, rsName, spec, order, s).1.world, rsName, spec)
  {
    var ms := DesiredMembers(spec, order);
    RecoverSends(n, spec, order, s, ms);
    var w1 := Recover(n, spec, order, s).1.world;
    if s.accept && n.world.config.value.id != "" && WellFormed(Text.Split(spec.members, ',')) {
      ParsedIsIdle(w1, rsName, spec);
    }
  }

  /** The spec's members in map order. */
  lemma DesiredMembers(spec: Spec, order: seq<int>) returns (ms: seq<Member>)
    requires KeyOrder(ParsedMembers(spec.members), order)
    ensures Within(ParsedMembers(spec.members), order) && ms == InOrder(ParsedMembers(spec.members), order)
    ensures ParsedMembers(LiveString(ms)) == ById(ms) == ParsedMembers(spec.members)
    ensures |ms| == |ParsedMembers(spec.members)|
  {
    var desired := ParsedMembers(spec.members);
    OrderIsWithin(desired, order);
    ms := InOrder(desired, order);
    ReconfiguredMembersParse(spec, order);
    ValuesRebuild(desired, order);
    OrderSize(desired, order);
  }

  lemma RecoverSends(n: Node, spec: Spec, order: seq<int>, s: Surroundings, ms: seq<Member>)
    requires KeyOrder(ParsedMembers(spec.members), order) && Within(ParsedMembers(spec.members), order)
    requires s.readConfig && n.world.config.Some? && ms == InOrder(ParsedMembers(spec.members), order)
    ensures var cfg := n.world.config.value;
      var next := cfg.(members := ms, version := cfg.version + 1);
      Recover(n, spec, order, s).1
        == n.(world := World(Some(if s.accept then next else cfg), n.world.sent + [Reconfig(next)]))
  {}

  /** configPrimary panics on a members string it cannot index, on any refusal
      while it sets up a fresh set, and on a set without a name. */
  predicate ConfiguringPanics(w: World, spec: Spec, a: Answers) {
    || !WellFormed(Text.Split(spec.members, ','))
    || match w.config
       case None =>
         && spec.replSetId == ""
         && (!a.initiate || (|Text.Split(spec.members, ',')| > 1 && !(a.readAdd && a.add)))
       case Some(c) => c.id == ""
  }

  /** Exactly when the task survives a delivery whose status it can read, and
      when an exit notice is left. */
  lemma ReadableDeliverySurvivesIff(n: Node, name: string, rsName: string, spec: Spec, order: seq<int>, s: Surroundings)
    requires KeyOrder(ParsedMembers(spec.members), order) && s.status.Readable?
    ensures var (o, n1) := Handle(n, name, rsName, spec, order, s);
      && (o.Waiting? <==>
            if spec.primary == name then !ConfiguringPanics(n.world, spec, s.answers)
            else StartsToWipe(n, name, spec, s) ==> s.wiped.Emptied? && s.restarted)
      && (n1.exitNotice <==> n.exitNotice || StartsToWipe(n, name, spec, s))
  {
    if spec.primary == name {
      ConfigureCases(n.world, rsName, spec, order, s.answers, s.status.lastInc);
      if WellFormed(Text.Split(spec.members, ',')) { EntriesOfWellFormed(Text.Split(spec.members, ',')); }
    }
  }

  /** No delivery takes the set name and id away from a node that has them,
      unless it wipes the node. */
  lemma IdentityIsKept(n: Node, name: string, rsName: string, spec: Spec, order: seq<int>, s: Surroundings)
    requires KeyOrder(ParsedMembers(spec.members), order)
    requires n.world.config.Some? && n.world.config.value.id != ""
    ensures var n1 := Handle(n, name, rsName, spec, order, s).1;
      n1.wipes == n.wipes && n1.halfWipes == n.halfWipes ==>
        && n1.world.config.Some?
        && n1.world.config.value.id == n.world.config.value.id
        && n1.world.config.value.setId == n.world.config.value.setId
  {
    if s.status.Readable? && spec.primary == name {
      LiveKeepsIdentity(n.world, rsName, spec, order, s.answers, s.status.lastInc);
    }
  }

  /** A spec published by a fresh primary names no set, so every member that
      has joined a set is wiped by every delivery. */
  lemma FreshSpecWipesJoinedMembers(
    n: Node, name: string, rsName: string, cs: seq<Candidates.MongoReport>, order: seq<int>, s: Surroundings)
    requires cs != [] && cs[0].replSetName == "" && cs[0].replSetId == ""
    requires KeyOrder(ParsedMembers(SpecOf(cs).members), order)
    requires name != cs[0].nodeName && s.status.Readable? && s.wiped.Emptied?
    requires n.world.config.Some? && n.world.config.value.id != ""
    ensures var n1 := Handle(n, name, rsName, SpecOf(cs), order, s).1;
      n1.wipes == n.wipes + 1 && n1.world.config.None?
  {}
}

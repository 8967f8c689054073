/** configPrimary (mongo-control.go): the primary compares the published spec
    with its live configuration and initiates, reconfigures or does nothing. */
module PrimaryConfig {
  import opened Iteration
  import opened MemberCodec
  import opened MongodClient
  import opened Options
  import opened Text

  /** The part of util.MongoStatus that decisions depend on. */
  datatype MongoStatus = MongoStatus(replSetId: string, replSetName: string, members: string, lastInc: int)

  /** GetMemberStatus when both commands succeed. */
  function StatusOf(config: Option<Replset>, lastInc: int): MongoStatus {
    match config
    case None => MongoStatus("", "", "", lastInc)
    case Some(c) => MongoStatus(c.setId, c.id, LiveString(c.members), lastInc)
  }

  /** The environment's answers to the commands of one configPrimary call. */
  datatype Answers = Answers(initiate: bool, readAdd: bool, add: bool, readConfig: bool, reconfig: bool, birth: Birth)

  predicate WellFormed(chunks: seq<string>) {
    forall c | c in chunks :: |Split(c, ':')| >= 4
  }

  /** The member sequence configPrimary itself builds; it indexes four tokens
      of every chunk. */
  function SpecMembers(spec: Spec): seq<Member> {
    Entries(Split(spec.members, ','))
  }

  predicate Stale(spec: Spec, status: MongoStatus) {
    status.replSetId == "" && spec.replSetId != ""
  }

  predicate Within(m: map<int, Member>, order: seq<int>) {
    forall i | 0 <= i < |order| :: order[i] in m
  }

  function InOrder(m: map<int, Member>, order: seq<int>): seq<Member>
    requires Within(m, order)
  {
    seq(|order|, i requires 0 <= i < |order| => m[order[i]])
  }

  /** What configPrimary has worked out from the two strings: the member list
      (None if a chunk is too short to index), whether the live map differs
      from the desired one, and the desired members in map order. */
  datatype Reading = Reading(members: Option<seq<Member>>, differs: bool, newMembers: seq<Member>)

  ghost function Read(spec: Spec, status: MongoStatus, order: seq<int>): Reading
    requires KeyOrder(ParsedMembers(spec.members), order)
  {
    OrderIsWithin(ParsedMembers(spec.members), order);
    Reading(
      if WellFormed(Split(spec.members, ',')) then Some(SpecMembers(spec)) else None,
      ParsedMembers(status.members) != ParsedMembers(spec.members),
      InOrder(ParsedMembers(spec.members), order))
  }

  /** The decision and its effect: initiate and add, reconfigure, or nothing. */
  function Act(w: World, rsName: string, stale: bool, named: bool, r: Reading, a: Answers): (Outcome, World) {
    if r.members.None? then (Panicked, w)
    else if !named && !stale then
      var members := r.members.value;
      var w1 := Initiated(w, rsName, members[..Min(1, |members|)], a.initiate, a.birth);
      if !(a.initiate && w.config.None?) then (Panicked, w1)
      else if |members| <= 1 then (Done, w1)
      else if !a.readAdd then (Panicked, w1)
      else
        var active := w1.config.value;
        (if a.add then Done else Panicked,
         Reconfigured(w1, active.(members := active.members + members[1..]), a.add))
    else if !stale && !r.differs then (Done, w)
    else if !a.readConfig then (Failed, w)
    else if !stale && w.config.None? then (Panicked, w)
    else
      var base := if stale then Replset(rsName, [], 0, ZERO_ID, 0) else w.config.value;
      (if a.reconfig then Done else Failed, Reconfigured(w, base.(members := r.newMembers), a.reconfig))
  }

  /** configPrimary as a function of the world it starts in, the map iteration
      order and the environment's answers. */
  ghost function Configure(w: World, rsName: string, spec: Spec, status: MongoStatus, order: seq<int>, a: Answers)
    : (Outcome, World)
    requires KeyOrder(ParsedMembers(spec.members), order)
  {
    Act(w, rsName, Stale(spec, status), status.replSetName != "", Read(spec, status, order), a)
  }

  function Min(a: nat, b: nat): nat {
    if a < b then a else b
  }

  // ----- The methods -----

  /** The comparison of configPrimary: lengths first, then key by key in
      whatever order the map yields, leaving at the first difference. It
      compares hosts only; equal keys stand for equal ids. */
  method MembersDiffer(currentMembers: map<int, Member>, desiredMember: map<int, Member>) returns (reconfNeeded: bool)
    requires forall k | k in currentMembers :: currentMembers[k].id == k
    requires forall k | k in desiredMember :: desiredMember[k].id == k
    ensures reconfNeeded <==> currentMembers != desiredMember
  {
    if |currentMembers| != |desiredMember| {
      return true;
    }
    var order := Keys(desiredMember);
    for i := 0 to |order|
      invariant forall j | 0 <= j < i ::
                  order[j] in currentMembers && currentMembers[order[j]] == desiredMember[order[j]]
    {
      var dk := order[i];
      assert dk in order;
      if dk !in currentMembers {
        return true;
      } else if currentMembers[dk].host != desiredMember[dk].host {
        return true;
      }
    }
    SubsetOfSameSize(desiredMember.Keys, currentMembers.Keys);
    assert currentMembers.Keys == desiredMember.Keys;
    return false;
  }

  /** Appends the values of the map in its iteration order. */
  method Values(m: map<int, Member>) returns (ms: seq<Member>, ghost order: seq<int>)
    ensures KeyOrder(m, order) && Within(m, order) && ms == InOrder(m, order)
  {
    var keys := Keys(m);
    order := keys;
    OrderIsWithin(m, order);
    ms := [];
    for i := 0 to |keys|
      invariant ms == InOrder(m, keys[..i])
    {
      ms := ms + [m[keys[i]]];
    }
    assert keys[..|keys|] == keys;
  }

  lemma OrderIsWithin(m: map<int, Member>, order: seq<int>)
    requires KeyOrder(m, order)
    ensures Within(m, order)
  {
    assert forall i | 0 <= i < |order| :: order[i] in order;
  }

  method ParseSpecMembers(spec: Spec) returns (members: Option<seq<Member>>)
    ensures members == if WellFormed(Split(spec.members, ',')) then Some(SpecMembers(spec)) else None
  {
    var ms: seq<Member> := [];
    var chunks := Split(spec.members, ',');
    for i := 0 to |chunks|
      invariant forall j | 0 <= j < i :: |Split(chunks[j], ':')| >= 4
      invariant ms == Entries(chunks[..i])
    {
      var tokens := Split(chunks[i], ':');
      EntriesStep(chunks, i);
      if |tokens| < 4 {
        assert chunks[i] in chunks;
        return None;
      }
      ms := ms + [Member(ParseInt32(tokens[0]), HostOf(tokens))];
    }
    assert chunks[..|chunks|] == chunks;
    assert WellFormed(chunks);
    return Some(ms);
  }

  method ConfigPrimary(mongoCli: Mongod, rsName: string, mongoConfig: Spec, memberStatus: MongoStatus, a: Answers)
    returns (outcome: Outcome, ghost order: seq<int>)
    modifies mongoCli
    ensures KeyOrder(ParsedMembers(mongoConfig.members), order)
    ensures (outcome, mongoCli.State()) == Configure(old(mongoCli.State()), rsName, mongoConfig, memberStatus, order, a)
  {
    var desiredMember := ParseMembers(mongoConfig.members);
    var newMembers;
    newMembers, order := Values(desiredMember);
    var members := ParseSpecMembers(mongoConfig);
    var currentMembers := ParseMembers(memberStatus.members);
    var hasStaleConfig := memberStatus.replSetId == "" && mongoConfig.replSetId != "";
    ghost var r := Read(mongoConfig, memberStatus, order);
    outcome := Apply(mongoCli, rsName, hasStaleConfig, memberStatus.replSetName, members,
                     currentMembers, desiredMember, newMembers, a, r);
  }

  method Apply(mongoCli: Mongod, rsName: string, hasStaleConfig: bool, replSetName: string, parsed: Option<seq<Member>>,
               currentMembers: map<int, Member>, desiredMember: map<int, Member>, newMembers: seq<Member>,
               a: Answers, ghost r: Reading)
    returns (outcome: Outcome)
    requires forall k | k in currentMembers :: currentMembers[k].id == k
    requires forall k | k in desiredMember :: desiredMember[k].id == k
    requires r == Reading(parsed, currentMembers != desiredMember, newMembers)
    modifies mongoCli
    ensures (outcome, mongoCli.State()) == Act(old(mongoCli.State()), rsName, hasStaleConfig, replSetName != "", r, a)
  {
    if parsed.None? { return Panicked; }
    var members := parsed.value;
    if replSetName == "" && !hasStaleConfig {
      var ok := mongoCli.ReplSetInitiate(rsName, members[..Min(1, |members|)], a.initiate, a.birth);
      if !ok { return Panicked; }
      if |members| > 1 {
        var added := mongoCli.AddMember(members[1..], a.readAdd, a.add);
        if !added.Done? { return Panicked; }
      }
    } else {
      var reconfNeeded := false;
      if hasStaleConfig {
        reconfNeeded := true;
      } else {
        reconfNeeded := MembersDiffer(currentMembers, desiredMember);
      }
      if reconfNeeded {
        if !a.readConfig { return Failed; }
        var cfg := mongoCli.config;
        if hasStaleConfig {
          cfg := Some(Replset(rsName, [], 0, ZERO_ID, 0));
        }
        if cfg.None? { return Panicked; }
        var ok := mongoCli.ReplSetReconfig(cfg.value.(members := newMembers), a.reconfig);
        if !ok { return Failed; }
      }
    }
    return Done;
  }

  // ----- Convergence -----

  /** Entries built by the parser can always be printed and parsed again. */
  lemma {:induction false} EntriesArePrintable(chunks: seq<string>)
    requires forall c | c in chunks :: ',' !in c
    ensures forall m | m in Entries(chunks) :: Printable(m)
  {
    if chunks != [] {
      EntriesArePrintable(chunks[..|chunks| - 1]);
      var last := chunks[|chunks| - 1];
      var tokens := Split(last, ':');
      if |tokens| >= 4 {
        TokensKeepOut(last, ':', ',');
        assert Clean(tokens[2]) && Clean(tokens[3]);
        assert Printable(MemberOf(tokens));
      }
    }
  }

  lemma {:induction false} TokensKeepOut(s: string, sep: char, c: char)
    requires c !in s
    ensures forall t | t in Split(s, sep) :: c !in t
  {
    if s != [] { TokensKeepOut(s[1..], sep, c); }
  }

  lemma {:induction false} ByIdMembers(ms: seq<Member>, k: int)
    requires k in ById(ms)
    ensures ById(ms)[k] in ms
  {
    if k != ms[|ms| - 1].id { ByIdMembers(ms[..|ms| - 1], k); }
  }

  /** Whatever the iteration order, the values of a keyed map rebuild it. */
  lemma {:induction false} ByIdOfValues(m: map<int, Member>, order: seq<int>)
    requires forall k | k in m :: m[k].id == k
    requires Within(m, order)
    ensures forall k :: k in ById(InOrder(m, order)) <==> k in order
    ensures forall k | k in ById(InOrder(m, order)) :: k in m && ById(InOrder(m, order))[k] == m[k]
  {
    if order != [] {
      var front, last := order[..|order| - 1], order[|order| - 1];
      ByIdOfValues(m, front);
      assert InOrder(m, order) == InOrder(m, front) + [m[last]];
      ByIdStep(InOrder(m, front), m[last]);
      assert forall k :: k in order <==> k in front || k == last;
    }
  }

  /** The stored members after a reconfiguration print and parse back to the
      desired map. */
  lemma ReconfiguredMembersParse(spec: Spec, order: seq<int>)
    requires KeyOrder(ParsedMembers(spec.members), order) && Within(ParsedMembers(spec.members), order)
    ensures ParsedMembers(LiveString(InOrder(ParsedMembers(spec.members), order))) == ParsedMembers(spec.members)
  {
    var desired := ParsedMembers(spec.members);
    var ms := InOrder(desired, order);
    ParsedArePrintable(spec.members);
    forall m | m in ms ensures Printable(m) {
      var i :| 0 <= i < |ms| && ms[i] == m;
      assert m == desired[order[i]];
    }
    LiveRoundTrip(ms);
    ValuesRebuild(desired, order);
  }

  lemma ValuesRebuild(m: map<int, Member>, order: seq<int>)
    requires forall k | k in m :: m[k].id == k
    requires KeyOrder(m, order) && Within(m, order)
    ensures ById(InOrder(m, order)) == m
  {
    ByIdOfValues(m, order);
  }

  lemma ParsedArePrintable(s: string)
    ensures forall k | k in ParsedMembers(s) :: Printable(ParsedMembers(s)[k])
  {
    var es := Entries(Split(s, ','));
    SplitParts(s);
    EntriesArePrintable(Split(s, ','));
    forall k | k in ById(es) ensures Printable(ById(es)[k]) { ByIdMembers(es, k); }
  }

  lemma SplitParts(s: string)
    ensures forall c | c in Split(s, ',') :: ',' !in c
  {}

  /** The members of a freshly initiated set print and parse back likewise. */
  lemma SpecMembersParse(spec: Spec)
    ensures ParsedMembers(LiveString(SpecMembers(spec))) == ParsedMembers(spec.members)
  {
    SplitParts(spec.members);
    EntriesArePrintable(Split(spec.members, ','));
    LiveRoundTrip(SpecMembers(spec));
  }

  /** A later run on the same spec sends nothing, whatever the map order and
      whatever mongod would have answered. */
  ghost predicate Idle(w: World, rsName: string, spec: Spec) {
    forall order, a, inc | KeyOrder(ParsedMembers(spec.members), order) ::
      Configure(w, rsName, spec, StatusOf(w.config, inc), order, a) == (Done, w)
  }

  /** A fresh set is initiated with its first member alone; the others follow
      in one reconfiguration. */
  function FreshCommands(rsName: string, ms: seq<Member>, stored: Replset): seq<Command>
    requires ms != []
  {
    [Initiate(rsName, [ms[0]])] + if |ms| > 1 then [Reconfig(stored)] else []
  }

  /** What a run that returned without error leaves stored, and what it sent. */
  lemma StoredAfter(w: World, rsName: string, stale: bool, named: bool, r: Reading, a: Answers, w1: World)
    requires Act(w, rsName, stale, named, r, a) == (Done, w1)
    requires named ==> w.config.Some?
    ensures r.members.Some? && w1.config.Some?
    ensures !named && !stale ==> var ms := r.members.value;
              && w.config.None?
              && w1.config.value == Replset(rsName, ms, a.birth.term, a.birth.setId, if |ms| > 1 then 2 else 1)
              && (ms != [] ==> w1.sent == w.sent + FreshCommands(rsName, ms, w1.config.value))
    ensures stale ==>
              && w1.config.value == Replset(rsName, r.newMembers, 0, ZERO_ID, 1)
              && w1.sent == w.sent + [Reconfig(w1.config.value)]
    ensures named && !stale && r.differs ==>
              && w1.config.value == w.config.value.(members := r.newMembers, version := w.config.value.version + 1)
              && w1.sent == w.sent + [Reconfig(w1.config.value)]
    ensures named && !stale && !r.differs ==> w1 == w
  {
    var ms := r.members.value;
    if |ms| > 1 { assert ms[..1] + ms[1..] == ms && ms[..1] == [ms[0]]; }
    else { assert ms[..Min(1, |ms|)] == ms; }
    if |ms| == 1 { assert ms == [ms[0]]; }
  }

  /** After a run that returned without error the printed live configuration
      parses to the desired members. */
  lemma StoredParses(w: World, rsName: string, spec: Spec, order: seq<int>, a: Answers, inc: int, w1: World)
    requires KeyOrder(ParsedMembers(spec.members), order)
    requires Configure(w, rsName, spec, StatusOf(w.config, inc), order, a) == (Done, w1)
    ensures w1.config.Some? && WellFormed(Split(spec.members, ','))
    ensures ParsedMembers(LiveString(w1.config.value.members)) == ParsedMembers(spec.members)
    ensures w1.config.value.id == if w.config.Some? then w.config.value.id else rsName
    ensures w.config.Some? ==> w.config.value.id != ""
  {
    var status := StatusOf(w.config, inc);
    OrderIsWithin(ParsedMembers(spec.members), order);
    StoredAfter(w, rsName, Stale(spec, status), status.replSetName != "", Read(spec, status, order), a, w1);
    SpecMembersParse(spec);
    ReconfiguredMembersParse(spec, order);
  }

  /** Convergence: after a run that returned without error, re-reading the
      status and running again on the same spec is idle, exactly when the set
      name is not empty or the node already had a configuration. */
  lemma Converges(w: World, rsName: string, spec: Spec, order: seq<int>, a: Answers, inc: int, w1: World)
    requires KeyOrder(ParsedMembers(spec.members), order)
    requires Configure(w, rsName, spec, StatusOf(w.config, inc), order, a) == (Done, w1)
    ensures Idle(w1, rsName, spec) <==> rsName != "" || w.config.Some?
  {
    StoredParses(w, rsName, spec, order, a, inc, w1);
    if rsName == "" && w.config.None? {
      NamelessSendsAgain(w1, rsName, spec, order, a, inc);
    } else {
      forall order', a', inc' | KeyOrder(ParsedMembers(spec.members), order')
        ensures Configure(w1, rsName, spec, StatusOf(w1.config, inc'), order', a') == (Done, w1)
      {
        ConfiguredIsDone(w1, rsName, spec, order', a', inc');
      }
    }
  }

  /** A node without a set name is initiated, whatever it has stored. */
  lemma NamelessSendsAgain(w: World, rsName: string, spec: Spec, order: seq<int>, a: Answers, inc: int)
    requires KeyOrder(ParsedMembers(spec.members), order) && WellFormed(Split(spec.members, ','))
    requires w.config.Some? && w.config.value.id == ""
    ensures Configure(w, rsName, spec, StatusOf(w.config, inc), order, a) != (Done, w)
  {
    var r := Read(spec, StatusOf(w.config, inc), order);
    ActInitiates(w, rsName, r, a);
  }

  lemma ActInitiates(w: World, rsName: string, r: Reading, a: Answers)
    requires r.members.Some? && w.config.Some?
    ensures Act(w, rsName, false, false, r, a) != (Done, w)
  {}

  lemma ConfiguredIsDone(w: World, rsName: string, spec: Spec, order: seq<int>, a: Answers, inc: int)
    requires KeyOrder(ParsedMembers(spec.members), order) && WellFormed(Split(spec.members, ','))
    requires w.config.Some? && w.config.value.id != ""
    requires ParsedMembers(LiveString(w.config.value.members)) == ParsedMembers(spec.members)
    ensures Configure(w, rsName, spec, StatusOf(w.config, inc), order, a) == (Done, w)
  {
    var r := Read(spec, StatusOf(w.config, inc), order);
    assert !r.differs && r.members.Some?;
  }

  /** Idleness depends on the stored configuration only, and says that the
      printed configuration parses to what the spec asks for. */
  lemma IdleMeans(w: World, rsName: string, spec: Spec, order: seq<int>, a: Answers)
    requires KeyOrder(ParsedMembers(spec.members), order) && Idle(w, rsName, spec)
    requires w.config.Some? && w.config.value.id != ""
    ensures WellFormed(Split(spec.members, ','))
    ensures ParsedMembers(LiveString(w.config.value.members)) == ParsedMembers(spec.members)
  {
    assert Configure(w, rsName, spec, StatusOf(w.config, 0), order, a) == (Done, w);
    StoredParses(w, rsName, spec, order, a, 0, w);
  }

  lemma ParsedIsIdle(w: World, rsName: string, spec: Spec)
    requires w.config.Some? && w.config.value.id != "" && WellFormed(Split(spec.members, ','))
    requires ParsedMembers(LiveString(w.config.value.members)) == ParsedMembers(spec.members)
    ensures Idle(w, rsName, spec)
  {
    forall order, a, inc | KeyOrder(ParsedMembers(spec.members), order)
      ensures Configure(w, rsName, spec, StatusOf(w.config, inc), order, a) == (Done, w)
    {
      ConfiguredIsDone(w, rsName, spec, order, a, inc);
    }
  }

  lemma SameConfigIsIdle(w: World, w1: World, rsName: string, spec: Spec, order: seq<int>, a: Answers)
    requires KeyOrder(ParsedMembers(spec.members), order) && Idle(w, rsName, spec)
    requires w.config.Some? && w.config.value.id != "" && w1.config == w.config
    ensures Idle(w1, rsName, spec)
  {
    IdleMeans(w, rsName, spec, order, a);
    ParsedIsIdle(w1, rsName, spec);
  }

  /** An idle configuration rewritten with the spec's members is idle again. */
  lemma RewriteIsIdle(w: World, rsName: string, spec: Spec, order: seq<int>, a: Answers)
    requires KeyOrder(ParsedMembers(spec.members), order) && Idle(w, rsName, spec)
    requires w.config.Some? && w.config.value.id != ""
    ensures Within(ParsedMembers(spec.members), order)
    ensures var cfg := w.config.value.(members := InOrder(ParsedMembers(spec.members), order));
      Idle(Reconfigured(w, cfg, true), rsName, spec)
  {
    OrderIsWithin(ParsedMembers(spec.members), order);
    IdleMeans(w, rsName, spec, order, a);
    ReconfiguredMembersParse(spec, order);
    var cfg := w.config.value.(members := InOrder(ParsedMembers(spec.members), order));
    ParsedIsIdle(Reconfigured(w, cfg, true), rsName, spec);
  }

  lemma LiveCanBeConfigured(w: World, rsName: string, spec: Spec, order: seq<int>, a: Answers, inc: int)
    requires KeyOrder(ParsedMembers(spec.members), order) && WellFormed(Split(spec.members, ','))
    requires w.config.Some? && w.config.value.id != "" && a.readConfig && a.reconfig
    ensures Configure(w, rsName, spec, StatusOf(w.config, inc), order, a).0.Done?
  {
    assert Read(spec, StatusOf(w.config, inc), order).members.Some?;
  }

  /** Initiate with the first member, then add the rest: for a spec printed by
      generateReplConfig a node without configuration ends up with one member
      per candidate, in the candidates' order. */
  lemma FreshMembersOfCandidates(
    w: World, rsName: string, cs: seq<Candidates.MongoReport>, order: seq<int>, a: Answers, inc: int, w1: World)
    requires cs != [] && forall c | c in cs :: CleanReport(c)
    requires cs[0].replSetId == "" && w.config.None?
    requires KeyOrder(ParsedMembers(SpecOf(cs).members), order)
    requires Configure(w, rsName, SpecOf(cs), StatusOf(w.config, inc), order, a) == (Done, w1)
    ensures w1.config == Some(Replset(rsName, MembersFor(cs), a.birth.term, a.birth.setId, if |cs| > 1 then 2 else 1))
    ensures w1.sent == w.sent + [Initiate(rsName, [MemberFor(cs[0])])]
                       + if |cs| > 1 then [Reconfig(w1.config.value)] else []
  {
    SpecSplits(cs);
    SpecEntriesParse(cs);
    ConfigureCases(w, rsName, SpecOf(cs), order, a, inc);
    FreshDone(w, rsName, MembersFor(cs), a, w1);
  }

  lemma FreshDone(w: World, rsName: string, ms: seq<Member>, a: Answers, w1: World)
    requires ms != [] && FreshRun(w, rsName, ms, a, Done, w1)
    ensures w1.config == Some(Replset(rsName, ms, a.birth.term, a.birth.setId, if |ms| > 1 then 2 else 1))
    ensures w1.sent == w.sent + [Initiate(rsName, [ms[0]])] + if |ms| > 1 then [Reconfig(w1.config.value)] else []
  {
    if |ms| == 1 { assert ms == [ms[0]]; }
  }

  /** A live run, however it ends, never changes the set's name, id or term.
      It sends nothing when the two parsed maps are equal, and otherwise at
      most one document, with the version raised by one and exactly the
      desired members, one per id. */
  lemma LiveKeepsIdentity(w: World, rsName: string, spec: Spec, order: seq<int>, a: Answers, inc: int)
    requires KeyOrder(ParsedMembers(spec.members), order)
    requires w.config.Some? && w.config.value.id != ""
    ensures var c := w.config.value;
      var w1 := Configure(w, rsName, spec, StatusOf(w.config, inc), order, a).1;
      && w1.config.Some?
      && (w1.config.value.id, w1.config.value.setId, w1.config.value.term) == (c.id, c.setId, c.term)
      && (ParsedMembers(LiveString(c.members)) == ParsedMembers(spec.members) ==> w1 == w)
      && (w1 != w ==> exists next ::
            && w1.sent == w.sent + [Reconfig(next)]
            && (next.id, next.setId, next.term, next.version) == (c.id, c.setId, c.term, c.version + 1)
            && ById(next.members) == ParsedMembers(spec.members)
            && |next.members| == |ParsedMembers(spec.members)|)
  {
    var desired := ParsedMembers(spec.members);
    OrderIsWithin(desired, order);
    ValuesRebuild(desired, order);
    OrderSize(desired, order);
    var r := Read(spec, StatusOf(w.config, inc), order);
    LiveAct(w, rsName, r, a);
  }

  // ----- Every case of configPrimary -----

  /** A node without configuration and a spec without a set id: the first member
      initiates alone, the rest is added to what is then stored; every refusal
      panics. */
  ghost predicate FreshRun(w: World, rsName: string, ms: seq<Member>, a: Answers, o: Outcome, w1: World)
    requires ms != []
  {
    var one := Replset(rsName, [ms[0]], a.birth.term, a.birth.setId, 1);
    var all := Replset(rsName, ms, a.birth.term, a.birth.setId, 2);
    var initiate := w.sent + [Initiate(rsName, [ms[0]])];
    if !a.initiate then o == Panicked && w1 == World(None, initiate)
    else if |ms| == 1 then o == Done && w1 == World(Some(one), initiate)
    else if !a.readAdd then o == Panicked && w1 == World(Some(one), initiate)
    else
      && o == (if a.add then Done else Panicked)
      && w1 == World(Some(if a.add then all else one), initiate + [Reconfig(all)])
  }

  /** One document is sent, and stored if it is accepted; nothing panics. */
  ghost predicate RewriteRun(w: World, next: Replset, a: Answers, o: Outcome, w1: World) {
    if !a.readConfig then o == Failed && w1 == w
    else
      && o == (if a.reconfig then Done else Failed)
      && w1 == World(if a.reconfig then Some(next) else w.config, w.sent + [Reconfig(next)])
  }

  /** What configPrimary sends, stores and returns, by what the node has stored
      and what the spec says. */
  lemma ConfigureCases(w: World, rsName: string, spec: Spec, order: seq<int>, a: Answers, inc: int)
    requires KeyOrder(ParsedMembers(spec.members), order)
    ensures Within(ParsedMembers(spec.members), order)
    ensures var (o, w1) := Configure(w, rsName, spec, StatusOf(w.config, inc), order, a);
      var ms, desired := SpecMembers(spec), InOrder(ParsedMembers(spec.members), order);
      if !WellFormed(Split(spec.members, ',')) then o == Panicked && w1 == w
      else
        && ms != []
        && match w.config
           case None =>
             if spec.replSetId == "" then FreshRun(w, rsName, ms, a, o, w1)
             else RewriteRun(w, Replset(rsName, desired, 0, ZERO_ID, 1), a, o, w1)
           case Some(c) =>
             if c.id == "" then o == Panicked && w1 == World(w.config, w.sent + [Initiate(rsName, [ms[0]])])
             else if ParsedMembers(LiveString(c.members)) == ParsedMembers(spec.members) then o == Done && w1 == w
             else RewriteRun(w, c.(members := desired, version := c.version + 1), a, o, w1)
  {
    OrderIsWithin(ParsedMembers(spec.members), order);
    if WellFormed(Split(spec.members, ',')) { EntriesOfWellFormed(Split(spec.members, ',')); }
    match w.config
    case None => EmptyNodeCase(w, rsName, spec, order, a, inc);
    case Some(_) => ConfiguredNodeCase(w, rsName, spec, order, a, inc);
  }

  lemma EmptyNodeCase(w: World, rsName: string, spec: Spec, order: seq<int>, a: Answers, inc: int)
    requires KeyOrder(ParsedMembers(spec.members), order) && Within(ParsedMembers(spec.members), order)
    requires w.config.None? && (WellFormed(Split(spec.members, ',')) ==> SpecMembers(spec) != [])
    ensures var (o, w1) := Configure(w, rsName, spec, StatusOf(w.config, inc), order, a);
      if !WellFormed(Split(spec.members, ',')) then o == Panicked && w1 == w
      else if spec.replSetId == "" then FreshRun(w, rsName, SpecMembers(spec), a, o, w1)
      else RewriteRun(w, Replset(rsName, InOrder(ParsedMembers(spec.members), order), 0, ZERO_ID, 1), a, o, w1)
  {
    var r := Read(spec, StatusOf(w.config, inc), order);
    if WellFormed(Split(spec.members, ',')) {
      if spec.replSetId == "" { FreshAct(w, rsName, r, a); } else { StaleAct(w, rsName, r, a); }
    }
  }

  lemma ConfiguredNodeCase(w: World, rsName: string, spec: Spec, order: seq<int>, a: Answers, inc: int)
    requires KeyOrder(ParsedMembers(spec.members), order) && Within(ParsedMembers(spec.members), order)
    requires w.config.Some? && (WellFormed(Split(spec.members, ',')) ==> SpecMembers(spec) != [])
    ensures var (o, w1) := Configure(w, rsName, spec, StatusOf(w.config, inc), order, a);
      var c, desired := w.config.value, InOrder(ParsedMembers(spec.members), order);
      if !WellFormed(Split(spec.members, ',')) then o == Panicked && w1 == w
      else if c.id == "" then
        o == Panicked && w1 == World(w.config, w.sent + [Initiate(rsName, [SpecMembers(spec)[0]])])
      else if ParsedMembers(LiveString(c.members)) == ParsedMembers(spec.members) then o == Done && w1 == w
      else RewriteRun(w, c.(members := desired, version := c.version + 1), a, o, w1)
  {
    var r := Read(spec, StatusOf(w.config, inc), order);
    ConfiguredActs(w, rsName, spec, order, a, inc);
    if WellFormed(Split(spec.members, ',')) {
      if w.config.value.id == "" { RefusedAct(w, rsName, r, a); } else { NamedAct(w, rsName, r, a); }
    }
  }

  /** A configuration has a set id, so it is never stale. */
  lemma ConfiguredActs(w: World, rsName: string, spec: Spec, order: seq<int>, a: Answers, inc: int)
    requires KeyOrder(ParsedMembers(spec.members), order) && w.config.Some?
    ensures Configure(w, rsName, spec, StatusOf(w.config, inc), order, a)
         == Act(w, rsName, false, w.config.value.id != "", Read(spec, StatusOf(w.config, inc), order), a)
  {}

  lemma {:induction false} EntriesOfWellFormed(chunks: seq<string>)
    requires WellFormed(chunks)
    ensures |Entries(chunks)| == |chunks|
  {
    if chunks != [] { EntriesOfWellFormed(chunks[..|chunks| - 1]); }
  }

  lemma FreshAct(w: World, rsName: string, r: Reading, a: Answers)
    requires w.config.None? && r.members.Some? && r.members.value != []
    ensures var (o, w1) := Act(w, rsName, false, false, r, a); FreshRun(w, rsName, r.members.value, a, o, w1)
  {
    var ms := r.members.value;
    assert ms[..Min(1, |ms|)] == [ms[0]];
    assert [ms[0]] + ms[1..] == ms;
  }

  lemma StaleAct(w: World, rsName: string, r: Reading, a: Answers)
    requires r.members.Some?
    ensures var (o, w1) := Act(w, rsName, true, false, r, a);
      RewriteRun(w, Replset(rsName, r.newMembers, 0, ZERO_ID, 1), a, o, w1)
  {}

  lemma RefusedAct(w: World, rsName: string, r: Reading, a: Answers)
    requires w.config.Some? && r.members.Some? && r.members.value != []
    ensures Act(w, rsName, false, false, r, a)
         == (Panicked, World(w.config, w.sent + [Initiate(rsName, [r.members.value[0]])]))
  {
    assert r.members.value[..Min(1, |r.members.value|)] == [r.members.value[0]];
  }

  lemma NamedAct(w: World, rsName: string, r: Reading, a: Answers)
    requires w.config.Some? && r.members.Some?
    ensures var (o, w1) := Act(w, rsName, false, true, r, a);
      var c := w.config.value;
      if !r.differs then o == Done && w1 == w
      else RewriteRun(w, c.(members := r.newMembers, version := c.version + 1), a, o, w1)
  {}

  lemma LiveAct(w: World, rsName: string, r: Reading, a: Answers)
    requires w.config.Some?
    ensures var c := w.config.value;
      var w1 := Act(w, rsName, false, true, r, a).1;
      var next := c.(members := r.newMembers, version := c.version + 1);
      && w1.config.Some?
      && (w1.config == w.config || w1.config == Some(next))
      && (w1 == w || (r.differs && w1.sent == w.sent + [Reconfig(next)]))
  {}

  /** A node without configuration whose spec names no set ends up with a set of
      the configured name when mongod accepts. */
  lemma FreshInitiates(w: World, rsName: string, spec: Spec, inc: int, order: seq<int>, a: Answers)
    requires KeyOrder(ParsedMembers(spec.members), order)
    requires w.config.None? && spec.replSetId == "" && WellFormed(Split(spec.members, ','))
    requires a.initiate && a.readAdd && a.add
    ensures var (o, w1) := Configure(w, rsName, spec, StatusOf(w.config, inc), order, a);
      o.Done? && w1.config.Some? && w1.config.value.id == rsName
  {
    var r := Read(spec, StatusOf(w.config, inc), order);
    assert r.members.Some?;
  }
}

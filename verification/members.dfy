/** The member list as a string. The controller prints it into the spec as
    "id:name:addr:port" entries, a member prints its live configuration as
    "id::host" entries, and one parser reads both (mongo-control.go, mongo.go). */
module MemberCodec {
  import opened Candidates
  import opened Options
  import opened Text

  /** util.Member */
  datatype Member = Member(id: int, host: string)

  /** MongoReplSetSpec */
  datatype Spec = Spec(
    count: int,
    primary: string,
    members: string,
    replSetId: string,
    replSetName: string,
    firstSec: uint32,
    firstInc: uint32,
    lastSec: uint32,
    lastInc: uint32)

  function HostOf(tokens: seq<string>): string
    requires |tokens| >= 4
  {
    tokens[2] + ":" + tokens[3]
  }

  function MemberOf(tokens: seq<string>): Member
    requires |tokens| >= 4
  {
    Member(ParseInt32(tokens[0]), HostOf(tokens))
  }

  // ----- The parser -----

  /** The members of a list by id, a later entry replacing an earlier one. */
  function ById(ms: seq<Member>): (m: map<int, Member>)
    ensures forall k | k in m :: m[k].id == k
  {
    if ms == [] then map[]
    else ById(ms[..|ms| - 1])[ms[|ms| - 1].id := ms[|ms| - 1]]
  }

  /** The last entry of an id is the one that stays, and no other id is there. */
  lemma {:induction false} LastEntryWins(ms: seq<Member>)
    ensures forall i | 0 <= i < |ms| && (forall j | i < j < |ms| :: ms[j].id != ms[i].id) ::
              ms[i].id in ById(ms) && ById(ms)[ms[i].id] == ms[i]
    ensures forall k | k in ById(ms) :: ById(ms)[k] in ms
  {
    if ms != [] {
      var front := ms[..|ms| - 1];
      LastEntryWins(front);
      forall i | 0 <= i < |ms| && (forall j | i < j < |ms| :: ms[j].id != ms[i].id)
        ensures ms[i].id in ById(ms) && ById(ms)[ms[i].id] == ms[i]
      {
        if i < |ms| - 1 {
          assert ms[|ms| - 1].id != ms[i].id;
          assert front[i] == ms[i] && forall j | i < j < |front| :: front[j] == ms[j];
        }
      }
    }
  }

  /** The well-formed entries among the comma-separated chunks, in order. */
  function Entries(chunks: seq<string>): seq<Member> {
    if chunks == [] then []
    else
      var tokens := Split(chunks[|chunks| - 1], ':');
      Entries(chunks[..|chunks| - 1]) + if |tokens| < 4 then [] else [MemberOf(tokens)]
  }

  function ParsedMembers(s: string): map<int, Member> {
    ById(Entries(Split(s, ',')))
  }

  lemma EntriesStep(chunks: seq<string>, i: nat)
    requires i < |chunks|
    ensures var tokens := Split(chunks[i], ':');
            Entries(chunks[..i + 1]) == Entries(chunks[..i]) + if |tokens| < 4 then [] else [MemberOf(tokens)]
  {
    assert chunks[..i + 1][..i] == chunks[..i];
  }

  ghost predicate ParsesAs(chunk: string, m: Member) {
    var tokens := Split(chunk, ':');
    |tokens| >= 4 && MemberOf(tokens) == m
  }

  lemma {:induction false} EntriesAre(chunks: seq<string>, ms: seq<Member>)
    requires |chunks| == |ms|
    requires forall i | 0 <= i < |ms| :: ParsesAs(chunks[i], ms[i])
    ensures Entries(chunks) == ms
  {
    if ms != [] {
      var n := |ms| - 1;
      EntriesAre(chunks[..n], ms[..n]);
      assert ParsesAs(chunks[n], ms[n]);
      assert ms == ms[..n] + [ms[n]];
    }
  }

  lemma ByIdStep(ms: seq<Member>, m: Member)
    ensures ById(ms + [m]) == ById(ms)[m.id := m]
  {
    assert (ms + [m])[..|ms|] == ms;
  }

  /** ParseMembers: fills a map, skipping chunks of fewer than four tokens. */
  method ParseMembers(membersStr: string) returns (members: map<int, Member>)
    ensures members == ParsedMembers(membersStr)
  {
    members := map[];
    var chunks := Split(membersStr, ',');
    for i := 0 to |chunks|
      invariant members == ById(Entries(chunks[..i]))
    {
      var tokens := Split(chunks[i], ':');
      EntriesStep(chunks, i);
      if |tokens| < 4 {
        assert Entries(chunks[..i]) + [] == Entries(chunks[..i]);
        continue;
      }
      var id := ParseInt32(tokens[0]);
      ByIdStep(Entries(chunks[..i]), MemberOf(tokens));
      members := members[id := Member(id, HostOf(tokens))];
    }
    assert chunks[..|chunks|] == chunks;
  }

  ghost predicate DistinctIds(ms: seq<Member>) {
    forall i, j | 0 <= i < j < |ms| :: ms[i].id != ms[j].id
  }

  ghost predicate Holds(m: map<int, Member>, x: Member) {
    x.id in m && m[x.id] == x
  }

  /** With distinct ids the map holds exactly the listed members. */
  lemma {:induction false} ByIdOfDistinct(ms: seq<Member>)
    requires DistinctIds(ms)
    ensures forall x :: Holds(ById(ms), x) <==> x in ms
    ensures |ById(ms)| == |ms|
  {
    if ms != [] {
      var front, last := ms[..|ms| - 1], ms[|ms| - 1];
      ByIdOfDistinct(front);
      if last.id in ById(front) {
        assert Holds(ById(front), ById(front)[last.id]);
        assert false;
      }
      forall x ensures Holds(ById(ms), x) <==> x in ms {
        assert x in ms <==> x in front || x == last;
        assert Holds(ById(front), x) ==> x.id != last.id;
      }
    }
  }

  /** With distinct ids, equal maps mean equal member sets. */
  lemma ByIdIsFaithful(ms: seq<Member>, ms': seq<Member>)
    requires DistinctIds(ms) && DistinctIds(ms')
    ensures ById(ms) == ById(ms') <==> forall x :: x in ms <==> x in ms'
  {
    ByIdOfDistinct(ms);
    ByIdOfDistinct(ms');
    if forall x :: x in ms <==> x in ms' {
      var m, m' := ById(ms), ById(ms');
      forall k | k in m ensures k in m' && m'[k] == m[k] {
        assert Holds(m, m[k]);
        assert Holds(m', m[k]);
      }
      forall k | k in m' ensures k in m {
        assert Holds(m', m'[k]);
        assert Holds(m, m'[k]);
      }
      assert m == m';
    }
  }

  // ----- The printer of the live configuration -----

  /** fmt.Sprintf("%d::%s", m.ID, m.Host) */
  function LiveEntry(m: Member): string {
    Itoa(m.id) + "::" + m.host
  }

  function LiveEntries(ms: seq<Member>): seq<string> {
    seq(|ms|, i requires 0 <= i < |ms| => LiveEntry(ms[i]))
  }

  /** The members string of GetMemberStatus. */
  function LiveString(ms: seq<Member>): string {
    Join(LiveEntries(ms), ',')
  }

  /** The loop of GetMemberStatus that prints the live configuration. */
  method PrintLive(config: seq<Member>) returns (s: string)
    ensures s == LiveString(config)
  {
    var members: seq<string> := [];
    for i := 0 to |config|
      invariant members == LiveEntries(config[..i])
    {
      members := members + [LiveEntry(config[i])];
    }
    assert config[..|config|] == config;
    s := Join(members, ',');
  }

  /** A host the format can carry: an address and a port, neither holding a
      separator, and an id that fits ParseInt's 32 bits. */
  ghost predicate Printable(m: Member) {
    IsInt32(m.id) && exists addr, port | Clean(addr) && Clean(port) :: m.host == addr + ":" + port
  }

  predicate Clean(field: string) {
    ',' !in field && ':' !in field
  }

  lemma TokensOfFour(a: string, b: string, c: string, d: string)
    requires Clean(a) && Clean(b) && Clean(c) && Clean(d)
    ensures Split(a + ":" + b + ":" + c + ":" + d, ':') == [a, b, c, d]
    ensures ',' !in a + ":" + b + ":" + c + ":" + d
  {
    assert a + ":" + b + ":" + c + ":" + d == a + [':'] + (b + [':'] + (c + [':'] + d));
    SplitAtSeparator(a, b + [':'] + (c + [':'] + d), ':');
    SplitAtSeparator(b, c + [':'] + d, ':');
    SplitAtSeparator(c, d, ':');
    SplitAtSeparator(d, [], ':');
  }

  lemma LiveEntryParses(m: Member)
    requires Printable(m)
    ensures ',' !in LiveEntry(m)
    ensures ParsesAs(LiveEntry(m), m)
  {
    var addr, port :| Clean(addr) && Clean(port) && m.host == addr + ":" + port;
    PrintHasNoSeparators(m.id);
    TokensOfFour(Itoa(m.id), "", addr, port);
    assert LiveEntry(m) == Itoa(m.id) + ":" + "" + ":" + addr + ":" + port;
    ParseOfPrint(m.id);
  }

  /** Printing the live configuration and parsing it back gives its members by
      id; the empty configuration prints as "" and parses to the empty map. */
  lemma LiveRoundTrip(ms: seq<Member>)
    requires forall m | m in ms :: Printable(m)
    ensures ParsedMembers(LiveString(ms)) == ById(ms)
  {
    if ms == [] {
      assert Split(LiveString(ms), ',') == [[]];
      var chunk: seq<string> := [[]];
      assert chunk[..0] == [];
      assert Entries(chunk) == [];
    } else {
      forall e | e in LiveEntries(ms) ensures ',' !in e {
        var i :| 0 <= i < |ms| && LiveEntries(ms)[i] == e;
        LiveEntryParses(ms[i]);
      }
      SplitOfJoin(LiveEntries(ms), ',');
      LiveEntriesParse(ms);
    }
  }

  lemma LiveEntriesParse(ms: seq<Member>)
    requires forall m | m in ms :: Printable(m)
    ensures Entries(LiveEntries(ms)) == ms
  {
    forall i | 0 <= i < |ms| ensures ParsesAs(LiveEntries(ms)[i], ms[i]) {
      LiveEntryParses(ms[i]);
    }
    EntriesAre(LiveEntries(ms), ms);
  }

  /** A live entry has an empty name: read like a spec it names nobody. */
  lemma {:induction false} LiveEntriesNameNobody(ms: seq<Member>)
    requires forall m | m in ms :: Printable(m)
    ensures var names := NamesIn(LiveEntries(ms));
      names.Some? && |names.value| == |ms| && forall name | name in names.value :: name == ""
  {
    if ms != [] {
      var n := |ms| - 1;
      LiveEntriesNameNobody(ms[..n]);
      assert LiveEntries(ms)[..n] == LiveEntries(ms[..n]);
      LiveEntryNamesNobody(ms[n]);
    }
  }

  lemma LiveEntryNamesNobody(m: Member)
    requires Printable(m)
    ensures |Split(LiveEntry(m), ':')| == 4 && Split(LiveEntry(m), ':')[1] == ""
  {
    var addr, port :| Clean(addr) && Clean(port) && m.host == addr + ":" + port;
    PrintHasNoSeparators(m.id);
    TokensOfFour(Itoa(m.id), "", addr, port);
    assert LiveEntry(m) == Itoa(m.id) + ":" + "" + ":" + addr + ":" + port;
  }

  // ----- The printer of the spec -----

  /** fmt.Sprintf("%s:%s:%s:%s", NodeId, NodeName, MongoAddr, MongoPort) */
  function SpecEntry(c: MongoReport): string {
    c.nodeId + ":" + c.nodeName + ":" + c.addr + ":" + c.port
  }

  function SpecEntries(cs: seq<MongoReport>): seq<string> {
    seq(|cs|, i requires 0 <= i < |cs| => SpecEntry(cs[i]))
  }

  function SpecOf(cs: seq<MongoReport>): Spec
    requires cs != []
  {
    Spec(|cs|, cs[0].nodeName, Join(SpecEntries(cs), ','), cs[0].replSetId, cs[0].replSetName,
         cs[0].firstSec, cs[0].firstInc, cs[0].lastSec, cs[0].lastInc)
  }

  /** The spec of a selection speaks of the snapshot's best report: its node is
      the primary, its set is the set, its oplog the reference, and no report's
      oplog ends later. */
  lemma SpecOfSelection(s: seq<MongoReport>, chosen: seq<MongoReport>) returns (best: MongoReport)
    requires s != [] && DistinctNames(s) && Selects(Newer, s, chosen)
    ensures chosen != [] && best in s && forall y | y in s && y != best :: Newer(best, y)
    ensures var spec := SpecOf(chosen);
      && spec.primary == best.nodeName && spec.replSetId == best.replSetId && spec.replSetName == best.replSetName
      && (spec.firstSec, spec.firstInc, spec.lastSec, spec.lastInc)
         == (best.firstSec, best.firstInc, best.lastSec, best.lastInc)
      && forall y | y in s :: y.lastSec < spec.lastSec || (y.lastSec == spec.lastSec && y.lastInc <= spec.lastInc)
  {
    PrimaryIsNewest(s, chosen);
    best := chosen[0];
    assert best in chosen;
  }

  /** generateReplConfig: None stands for the panic of candidates[0] on an
      empty slice. */
  method GenerateReplConfig(candidates: seq<MongoReport>) returns (spec: Option<Spec>)
    ensures spec == if candidates == [] then None else Some(SpecOf(candidates))
  {
    var memberStr: seq<string> := [];
    for i := 0 to |candidates|
      invariant memberStr == SpecEntries(candidates[..i])
    {
      var m := candidates[i];
      memberStr := memberStr + [m.nodeId + ":" + m.nodeName + ":" + m.addr + ":" + m.port];
    }
    assert candidates[..|candidates|] == candidates;
    if |candidates| == 0 {
      return None;
    }
    var primary := candidates[0];
    return Some(Spec(|candidates|, primary.nodeName, Join(memberStr, ','), primary.replSetId, primary.replSetName,
                     primary.firstSec, primary.firstInc, primary.lastSec, primary.lastInc));
  }

  predicate CleanReport(c: MongoReport) {
    Clean(c.nodeId) && Clean(c.nodeName) && Clean(c.addr) && Clean(c.port)
  }

  function MemberFor(c: MongoReport): Member {
    Member(ParseInt32(c.nodeId), c.addr + ":" + c.port)
  }

  function MembersFor(cs: seq<MongoReport>): seq<Member> {
    seq(|cs|, i requires 0 <= i < |cs| => MemberFor(cs[i]))
  }

  lemma SpecEntryParses(c: MongoReport)
    requires CleanReport(c)
    ensures ',' !in SpecEntry(c)
    ensures Split(SpecEntry(c), ':') == [c.nodeId, c.nodeName, c.addr, c.port]
    ensures ParsesAs(SpecEntry(c), MemberFor(c))
  {
    TokensOfFour(c.nodeId, c.nodeName, c.addr, c.port);
  }

  lemma SpecSplits(cs: seq<MongoReport>)
    requires cs != [] && forall c | c in cs :: CleanReport(c)
    ensures Split(SpecOf(cs).members, ',') == SpecEntries(cs)
  {
    forall e | e in SpecEntries(cs) ensures ',' !in e {
      var i :| 0 <= i < |cs| && SpecEntries(cs)[i] == e;
      SpecEntryParses(cs[i]);
    }
    SplitOfJoin(SpecEntries(cs), ',');
  }

  lemma SpecEntriesParse(cs: seq<MongoReport>)
    requires forall c | c in cs :: CleanReport(c)
    ensures Entries(SpecEntries(cs)) == MembersFor(cs)
  {
    forall i | 0 <= i < |cs| ensures ParsesAs(SpecEntries(cs)[i], MembersFor(cs)[i]) {
      SpecEntryParses(cs[i]);
    }
    EntriesAre(SpecEntries(cs), MembersFor(cs));
  }

  /** The names GetMembers reads from a members string; None stands for the
      panic of tokens[1] on a chunk without a colon. */
  function NamesIn(chunks: seq<string>): Option<seq<string>> {
    if chunks == [] then Some([])
    else
      var tokens := Split(chunks[|chunks| - 1], ':');
      var front := NamesIn(chunks[..|chunks| - 1]);
      if front.None? || |tokens| < 2 then None else Some(front.value + [tokens[1]])
  }

  /** MongoReplSetSpec.GetMembers */
  method GetMembers(spec: Spec) returns (names: Option<seq<string>>)
    ensures names == NamesIn(Split(spec.members, ','))
  {
    var members: seq<string> := [];
    var chunks := Split(spec.members, ',');
    for i := 0 to |chunks|
      invariant NamesIn(chunks[..i]) == Some(members)
    {
      var tokens := Split(chunks[i], ':');
      assert chunks[..i + 1][..i] == chunks[..i];
      if |tokens| < 2 {
        NamesNeedTokens(chunks, i);
        return None;
      }
      members := members + [tokens[1]];
    }
    assert chunks[..|chunks|] == chunks;
    return Some(members);
  }

  lemma {:induction false} NamesNeedTokens(chunks: seq<string>, i: nat)
    requires i < |chunks| && |Split(chunks[i], ':')| < 2
    ensures NamesIn(chunks) == None
  {
    if i < |chunks| - 1 { NamesNeedTokens(chunks[..|chunks| - 1], i); }
  }

  /** GetMembers panics exactly when some chunk has no colon. */
  lemma {:induction false} NamesReadIff(chunks: seq<string>)
    ensures NamesIn(chunks).Some? <==> forall c | c in chunks :: ':' in c
  {
    if chunks != [] {
      var front, last := chunks[..|chunks| - 1], chunks[|chunks| - 1];
      NamesReadIff(front);
      SecondPartIffSeparator(last, ':');
      assert forall c :: c in chunks <==> c in front || c == last;
    }
  }

  lemma {:induction false} NamesOfEntries(cs: seq<MongoReport>, names: seq<string>)
    requires forall c | c in cs :: CleanReport(c)
    requires |names| == |cs| && forall i | 0 <= i < |cs| :: names[i] == cs[i].nodeName
    ensures NamesIn(SpecEntries(cs)) == Some(names)
  {
    if cs != [] {
      var n := |cs| - 1;
      NamesOfEntries(cs[..n], names[..n]);
      SpecEntryParses(cs[n]);
      assert SpecEntries(cs)[..n] == SpecEntries(cs[..n]);
      assert names == names[..n] + [names[n]];
    }
  }

  /** The printed spec read back by GetMembers: the node names in order. */
  lemma NamesRoundTrip(cs: seq<MongoReport>, names: seq<string>)
    requires cs != [] && forall c | c in cs :: CleanReport(c)
    requires |names| == |cs| && forall i | 0 <= i < |cs| :: names[i] == cs[i].nodeName
    ensures NamesIn(Split(SpecOf(cs).members, ',')) == Some(names)
  {
    NamesOfEntries(cs, names);
    SpecSplits(cs);
  }

  /** With distinct ids the parsed map holds addr:port under every candidate's
      id and nothing else, so Count is its size. */
  lemma SpecParsesExactly(cs: seq<MongoReport>)
    requires cs != [] && forall c | c in cs :: CleanReport(c)
    requires DistinctIds(MembersFor(cs))
    ensures SpecOf(cs).count == |ParsedMembers(SpecOf(cs).members)|
    ensures forall x :: Holds(ParsedMembers(SpecOf(cs).members), x) <==> exists c | c in cs :: x == MemberFor(c)
  {
    SpecSplits(cs);
    SpecEntriesParse(cs);
    ByIdOfDistinct(MembersFor(cs));
    MembersForElements(cs);
  }

  lemma MembersForElements(cs: seq<MongoReport>)
    ensures forall x :: x in MembersFor(cs) <==> exists c | c in cs :: x == MemberFor(c)
  {
    forall x ensures x in MembersFor(cs) <==> exists c | c in cs :: x == MemberFor(c) {
      if x in MembersFor(cs) {
        var i :| 0 <= i < |cs| && MembersFor(cs)[i] == x;
        assert cs[i] in cs;
      }
      if c :| c in cs && x == MemberFor(c) {
        var i :| 0 <= i < |cs| && cs[i] == c;
        assert MembersFor(cs)[i] == x;
      }
    }
  }

  /** The two printed forms parse to equal maps exactly when they assign the
      same hosts to the same ids. */
  lemma TwoPrintersOneParser(live: seq<Member>, cs: seq<MongoReport>)
    requires forall m | m in live :: Printable(m)
    requires cs != [] && forall c | c in cs :: CleanReport(c)
    requires DistinctIds(live) && DistinctIds(MembersFor(cs))
    ensures ParsedMembers(LiveString(live)) == ParsedMembers(SpecOf(cs).members)
       <==> forall x :: x in live <==> exists c | c in cs :: x == MemberFor(c)
  {
    LiveRoundTrip(live);
    SpecSplits(cs);
    SpecEntriesParse(cs);
    ByIdIsFaithful(live, MembersFor(cs));
    MembersForElements(cs);
  }
}

/** ControllerTask (replica.go): snapshots of candidate reports are debounced
    by a timer whose callback fires a queued state machine, which sorts the
    snapshot, generates the spec and publishes it.

    The two goroutines meet in the machine's queue, so a run is a sequence of
    events in any order; an event that is not enabled changes nothing. */
module Controller {
  import opened Candidates
  import opened MemberCodec
  import opened Options
  import opened Ordering
  import opened Stateless

  datatype Phase = Init | Configuration | Monitoring

  /** ContextValue is what Fire(context.Background(), ...) passes as trigger. */
  datatype Trigger = Start | CandidateReport | InitialConfiguration | MemberStatus | ContextValue

  type Snapshot = seq<MongoReport>

  datatype Call = Call(trigger: Trigger, args: Option<Snapshot>)

  /** rs.timer: nil, the five-minute timer without a callback, or an AfterFunc. */
  datatype Timer = NoTimer | Watchdog | AfterFunc(due: nat, candidates: Snapshot)

  /** The permit table of ControllerTask. */
  const MACHINE: Machine<Phase, Trigger> := Machine(
    map[],
    map[(Init, Start) := Permit(Configuration),
        (Configuration, InitialConfiguration) := Permit(Monitoring),
        (Configuration, CandidateReport) := Reentry,
        (Monitoring, MemberStatus) := Reentry,
        (Monitoring, CandidateReport) := Reentry])

  /** Without superstates every move runs the exit of the one state and the
      entry of the other. */
  lemma MovesAreFlat(s: Phase, d: Phase, x: Phase)
    requires s != d
    ensures x in ExitPath(MACHINE, s, d) <==> x == s
    ensures x in EntryPath(MACHINE, s, d) <==> x == d
  {
    assert Shallow(MACHINE);
    ActionsRunAtTheBoundary(MACHINE, s, d, x);
  }

  datatype Ctrl = Ctrl(
    phase: Phase,
    timer: Timer,
    fired: seq<Snapshot>,          // callbacks that started and have not queued their trigger yet
    queue: seq<Call>,
    rsCandidates: Snapshot,        // rs.candidates
    lastMembers: Snapshot,
    lastSpec: Option<Spec>,
    generated: seq<Spec>,          // every spec built
    stored: seq<Spec>,             // every spec written to the store
    crashed: bool,
    now: nat,
    latest: Snapshot,              // the last snapshot the configuration phase took in
    arrived: nat)                  // and when

  /** Seconds to wait: 1 for six candidates, 5 from three on, else 15. */
  function Delay(n: nat): nat {
    if n == 6 then 1 else if n >= 3 then 5 else 15
  }

  /** The machine before its first trigger. */
  const INITIAL := Ctrl(Init, NoTimer, [], [Call(Start, None)], [], [], None, [], [], false, 0, [], 0)

  /** OnEntry of the configuration state. The cast of the argument succeeds,
      so rs.candidates is not assigned. */
  function ConfigurationEntry(c: Ctrl, args: Option<Snapshot>): Ctrl {
    match args
    case None => c.(timer := NoTimer)
    case Some(cs) =>
      c.(timer := if cs == [] then NoTimer else AfterFunc(c.now + Delay(|cs|), cs), latest := cs, arrived := c.now)
  }

  /** The number of candidates kept, as the monitoring entry computes it. */
  function KeptLength(c: Ctrl, n: nat): nat {
    if n < 3 then |c.rsCandidates| else 3
  }

  /** OnEntryFrom(triggerInitialConfiguration): sort, cut, generate, publish.
      Nothing is undone when the store or the job submission fails. */
  function MonitoringEntry(c: Ctrl, sorted: Snapshot, putOk: bool, deployOk: bool): Ctrl {
    var length := KeptLength(c, |sorted|);
    if length > |sorted| || length == 0 then c.(crashed := true)
    else
      var chosen := sorted[..length];
      Publish(c.(generated := c.generated + [SpecOf(chosen)]), SpecOf(chosen), chosen, putOk, deployOk)
  }

  /** publishReplSpec and what follows it. */
  function Publish(c: Ctrl, spec: Spec, chosen: Snapshot, putOk: bool, deployOk: bool): Ctrl {
    if !putOk then c
    else
      var c1 := c.(stored := c.stored + [spec]);
      if NamesIn(Text.Split(spec.members, ',')).None? then c1.(crashed := true)
      else if !deployOk then c1
      else c1.(lastMembers := chosen, lastSpec := Some(spec))
  }

  /** The environment's part in executing one queued trigger: the order the
      sort produced, and whether the store and the job scheduler obeyed. */
  datatype Oracle = Oracle(sorted: Snapshot, putOk: bool, deployOk: bool)

  ghost predicate Fits(c: Ctrl, o: Oracle) {
    c.queue != [] && c.queue[0].trigger == InitialConfiguration && c.queue[0].args.Some? ==>
      SortedPermutation(Newer, c.queue[0].args.value, o.sorted)
  }

  /** Execution of the trigger at the head of the queue. */
  function Executed(c: Ctrl, o: Oracle): Ctrl
    requires c.queue != []
  {
    React(c.(queue := c.queue[1..]), Respond(MACHINE, c.phase, c.queue[0].trigger), c.queue[0].args, o)
  }

  function React(c: Ctrl, r: Response<Phase>, args: Option<Snapshot>, o: Oracle): Ctrl {
    match r
    case Unhandled => c
    case Ignored => c
    case Reenter => if c.phase == Configuration then ConfigurationEntry(c, args) else c
    case Move(dest, _, _) =>
      var c1 := c.(phase := dest);
      if dest == Configuration then ConfigurationEntry(c1, args).(timer := Watchdog)
      else if args.None? then c1.(crashed := true)
      else MonitoringEntry(c1, o.sorted, o.putOk, o.deployOk)
  }

  datatype Event =
    | Tick
    | Report(candidates: Snapshot)   // a snapshot arrives from the store
    | Health                         // a health status arrives
    | Expire                         // the timer expires: Stop no longer helps
    | Land(i: nat)                   // a started callback queues its trigger
    | Execute(oracle: Oracle)        // the machine takes the next trigger

  ghost predicate Enabled(c: Ctrl, e: Event) {
    && !c.crashed
    && match e
       case Tick => true
       case Report(_) => c.phase != Init
       case Health => c.phase != Init
       case Expire => c.timer.AfterFunc? && c.timer.due <= c.now
       case Land(i) => i < |c.fired|
       case Execute(o) => c.queue != [] && Fits(c, o)
  }

  ghost function Step(c: Ctrl, e: Event): Ctrl {
    if !Enabled(c, e) then c
    else
      match e
      case Tick => c.(now := c.now + 1)
      case Report(cs) => c.(queue := c.queue + [Call(CandidateReport, Some(cs))])
      case Health => c.(queue := c.queue + [Call(ContextValue, None)])
      case Expire => c.(timer := NoTimer, fired := c.fired + [c.timer.candidates])
      case Land(i) => c.(fired := c.fired[..i] + c.fired[i + 1..],
                         queue := c.queue + [Call(InitialConfiguration, Some(c.fired[i]))])
      case Execute(o) => Executed(c, o)
  }

  ghost function Run(es: seq<Event>): Ctrl {
    if es == [] then INITIAL else Step(Run(es[..|es| - 1]), es[|es| - 1])
  }

  // ----- Published at most once -----

  function Rank(p: Phase): nat {
    match p case Init => 0 case Configuration => 1 case Monitoring => 2
  }

  /** Every spec built comes from some snapshot of at least three reports. */
  ghost predicate Grounded(spec: Spec, snapshot: Snapshot) {
    |snapshot| >= 3 && exists chosen :: Selects(Newer, snapshot, chosen) && |chosen| == 3 && spec == SpecOf(chosen)
  }

  /** Every spec that can still go out, or has gone out, stems from a snapshot
      in known. */
  ghost predicate Traced(c: Ctrl, known: set<Snapshot>) {
    && (c.timer.AfterFunc? ==> c.timer.candidates in known && c.timer.candidates != [])
    && (forall cs | cs in c.fired :: cs in known && cs != [])
    && (forall call | call in c.queue && call.args.Some? :: call.args.value in known)
    && (forall call | call in c.queue && call.trigger == InitialConfiguration ::
          call.args.Some? && call.args.value != [])
    && (c.phase == Init ==> c.queue == [Call(Start, None)] && c.fired == [] && c.timer == NoTimer)
    && (c.phase != Init ==> forall call | call in c.queue :: call.trigger != Start)
    && (forall s | s in c.generated :: exists snapshot | snapshot in known :: Grounded(s, snapshot))
  }

  ghost predicate Once(c: Ctrl) {
    && c.rsCandidates == []
    && |c.generated| <= 1
    && (c.generated != [] ==> c.phase == Monitoring)
    && (c.stored == [] || c.stored == c.generated)
    && (c.lastSpec.Some? ==> c.stored == [c.lastSpec.value])
  }

  lemma StepKeepsOnce(c: Ctrl, e: Event)
    requires Once(c)
    ensures Once(Step(c, e))
    ensures Rank(c.phase) <= Rank(Step(c, e).phase) <= Rank(c.phase) + 1
    ensures c.generated <= Step(c, e).generated && c.stored <= Step(c, e).stored
  {}

  function Known(known: set<Snapshot>, e: Event): set<Snapshot> {
    if e.Report? then known + {e.candidates} else known
  }

  lemma StepKeepsTraced(c: Ctrl, e: Event, known: set<Snapshot>)
    requires Once(c) && Traced(c, known)
    ensures Traced(Step(c, e), Known(known, e))
  {
    if Enabled(c, e) && e.Execute? {
      if Publishes(c) {
        PublishKeepsTraced(c, e.oracle, known);
      } else {
        QuietKeepsTraced(c, e.oracle, known);
      }
    } else if Enabled(c, e) && e.Land? {
      assert c.fired[e.i] in c.fired;
      forall cs | cs in Step(c, e).fired ensures cs in c.fired {
        assert cs in c.fired[..e.i] || cs in c.fired[e.i + 1..];
      }
    }
  }

  /** The next trigger moves the machine from configuration to monitoring. */
  ghost predicate Publishes(c: Ctrl) {
    c.queue != [] && c.phase == Configuration && c.queue[0].trigger == InitialConfiguration
  }

  /** What executing any other trigger changes. */
  lemma QuietEffect(c: Ctrl, o: Oracle)
    requires c.queue != [] && !Publishes(c)
    ensures var c1, call := c.(queue := c.queue[1..]), c.queue[0];
      Executed(c, o) ==
        if c.phase == Init && call.trigger == Start then
          ConfigurationEntry(c1.(phase := Configuration), call.args).(timer := Watchdog)
        else if c.phase == Configuration && call.trigger == CandidateReport then ConfigurationEntry(c1, call.args)
        else c1
  {}

  lemma QuietKeepsTraced(c: Ctrl, o: Oracle, known: set<Snapshot>)
    requires Once(c) && Traced(c, known) && c.queue != [] && !Publishes(c)
    ensures Traced(Executed(c, o), known)
  {
    QuietEffect(c, o);
    assert c.queue[0] in c.queue;
    assert forall call | call in c.queue[1..] :: call in c.queue;
  }

  /** What executing that trigger changes. */
  lemma PublishEffect(c: Ctrl, o: Oracle)
    requires Publishes(c) && c.queue[0].args.Some? && c.rsCandidates == []
    ensures var r := Executed(c, o);
      && r == c.(phase := Monitoring, queue := c.queue[1..], crashed := r.crashed, generated := r.generated,
                 stored := r.stored, lastMembers := r.lastMembers, lastSpec := r.lastSpec)
      && r.generated == c.generated + (if |o.sorted| >= 3 then [SpecOf(o.sorted[..3])] else [])
      && r.stored == c.stored + (if |o.sorted| >= 3 && o.putOk then [SpecOf(o.sorted[..3])] else [])
      && (r.crashed <==> c.crashed || |o.sorted| < 3 || (o.putOk && !ReadsBack(o.sorted[..3])))
      && (r.lastMembers, r.lastSpec) == (
           if |o.sorted| >= 3 && o.putOk && ReadsBack(o.sorted[..3]) && o.deployOk
           then (o.sorted[..3], Some(SpecOf(o.sorted[..3]))) else (c.lastMembers, c.lastSpec))
  {
    if |o.sorted| >= 3 { NamesReadIff(Text.Split(SpecOf(o.sorted[..3]).members, ',')); }
  }

  /** GetMembers can read the names from the spec it is about to deploy. */
  predicate ReadsBack(chosen: Snapshot)
    requires chosen != []
  {
    forall chunk | chunk in Text.Split(SpecOf(chosen).members, ',') :: ':' in chunk
  }

  lemma CutIsGrounded(snapshot: Snapshot, sorted: Snapshot)
    requires SortedPermutation(Newer, snapshot, sorted) && |sorted| >= 3
    ensures Grounded(SpecOf(sorted[..3]), snapshot)
  {
    SameLength(snapshot, sorted);
    assert Selects(Newer, snapshot, sorted[..3]);
  }

  lemma PublishKeepsTraced(c: Ctrl, o: Oracle, known: set<Snapshot>)
    requires Once(c) && Traced(c, known) && Publishes(c) && Fits(c, o)
    ensures Traced(Executed(c, o), known)
  {
    PublishEffect(c, o);
    var call := c.queue[0];
    assert call in c.queue;
    assert forall x | x in c.queue[1..] :: x in c.queue;
    var r := Executed(c, o);
    forall s | s in r.generated ensures exists snapshot | snapshot in known :: Grounded(s, snapshot) {
      if s !in c.generated {
        CutIsGrounded(call.args.value, o.sorted);
      }
    }
  }

  /** The permit table, with the response to every trigger in every phase. */
  lemma TableOfPhases(p: Phase, t: Trigger)
    ensures Respond(MACHINE, p, t) ==
      if p == Init && t == Start then Move(Configuration, [Init], [Configuration])
      else if p == Configuration && t == InitialConfiguration then Move(Monitoring, [Configuration], [Monitoring])
      else if p != Init && t == CandidateReport then Reenter
      else if p == Monitoring && t == MemberStatus then Reenter
      else Unhandled
  {}

  /** Health statuses are fired with a context in the trigger's place: in no run
      is the health trigger ever queued, and what is queued instead is not
      handled in any phase. */
  lemma {:induction false} HealthIsNeverHandled(es: seq<Event>)
    ensures forall call | call in Run(es).queue :: call.trigger != MemberStatus
    ensures !Run(es).crashed && Run(es).phase != Init ==>
      && Run(es + [Health]) == Run(es).(queue := Run(es).queue + [Call(ContextValue, None)])
      && forall p :: Respond(MACHINE, p, ContextValue) == Unhandled
  {
    assert (es + [Health])[..|es|] == es;
    if es != [] {
      var front, e := es[..|es| - 1], es[|es| - 1];
      HealthIsNeverHandled(front);
      RunInvariant(front);
      StepQueuesNoHealth(Run(front), e);
    }
  }

  lemma StepQueuesNoHealth(c: Ctrl, e: Event)
    requires c.rsCandidates == [] && forall call | call in c.queue :: call.trigger != MemberStatus
    requires forall call | call in c.queue && call.trigger == InitialConfiguration :: call.args.Some?
    ensures forall call | call in Step(c, e).queue :: call.trigger != MemberStatus
  {
    if Enabled(c, e) && e.Execute? {
      assert c.queue[0] in c.queue;
      assert forall call | call in c.queue[1..] :: call in c.queue;
      if Publishes(c) { PublishEffect(c, e.oracle); } else { QuietEffect(c, e.oracle); }
    }
  }

  ghost function Reported(es: seq<Event>): set<Snapshot> {
    set i | 0 <= i < |es| && es[i].Report? :: es[i].candidates
  }

  lemma {:induction false} RunInvariant(es: seq<Event>)
    ensures Once(Run(es)) && Traced(Run(es), Reported(es))
  {
    if es != [] {
      var front, e := es[..|es| - 1], es[|es| - 1];
      RunInvariant(front);
      StepKeepsOnce(Run(front), e);
      StepKeepsTraced(Run(front), e, Reported(front));
      forall cs | cs in Known(Reported(front), e) ensures cs in Reported(es) {
        if cs in Reported(front) {
          var i :| 0 <= i < |front| && front[i].Report? && front[i].candidates == cs;
          assert es[i].candidates == cs;
        } else {
          assert es[|es| - 1].candidates == cs;
        }
      }
      TracedGrows(Run(es), Known(Reported(front), e), Reported(es));
    }
  }

  lemma TracedGrows(c: Ctrl, known: set<Snapshot>, more: set<Snapshot>)
    requires Traced(c, known) && forall cs | cs in known :: cs in more
    ensures Traced(c, more)
  {}

  /** In every run, however reports, health events, expiries and started
      callbacks interleave, at most one spec is ever built, at most one is ever
      stored, and it selects the best three of a snapshot the store delivered. */
  lemma PublishedAtMostOnce(es: seq<Event>)
    ensures |Run(es).generated| <= 1 && |Run(es).stored| <= 1
    ensures forall s | s in Run(es).stored :: exists snapshot | snapshot in Reported(es) :: Grounded(s, snapshot)
  {
    RunInvariant(es);
  }

  /** Phases only move forward, and what is published stays published. */
  lemma {:induction false} PhasesAreMonotone(es: seq<Event>, more: seq<Event>)
    ensures Rank(Run(es).phase) <= Rank(Run(es + more).phase)
    ensures Run(es).stored <= Run(es + more).stored
  {
    if more == [] {
      assert es + more == es;
    } else {
      var front, e := more[..|more| - 1], more[|more| - 1];
      PhasesAreMonotone(es, front);
      assert (es + more)[..|es + more| - 1] == es + front;
      RunInvariant(es + front);
      StepKeepsOnce(Run(es + front), e);
    }
  }

  /** The length computed from rs.candidates is the intended min(3, n) exactly
      for snapshots of at least three reports (or none). */
  lemma KeptLengthIsMin3(es: seq<Event>, n: nat)
    ensures KeptLength(Run(es), n) == Min3(n) <==> n >= 3 || n == 0
  {
    RunInvariant(es);
  }

  /** With one or two candidates the fifteen-second timer ends in a panic: the
      spec generator is handed an empty slice and nothing is published. */
  lemma FewCandidatesCrash(es: seq<Event>, o: Oracle)
    requires var c := Run(es);
      && !c.crashed && c.phase == Configuration && Fits(c, o)
      && c.queue != [] && c.queue[0].trigger == InitialConfiguration
      && c.queue[0].args.Some? && |c.queue[0].args.value| < 3
    ensures Run(es + [Execute(o)]).crashed && Run(es + [Execute(o)]).stored == []
  {
    RunInvariant(es);
    var c := Run(es);
    assert c.queue[0] in c.queue;
    SameLength(c.queue[0].args.value, o.sorted);
    assert (es + [Execute(o)])[..|es|] == es;
  }

  /** Nothing else panics, except a stored spec whose names do not read back:
      every crash is the execution of a publishing trigger. */
  lemma CrashesExactly(es: seq<Event>, e: Event)
    requires !Run(es).crashed
    ensures Step(Run(es), e).crashed <==>
      && Enabled(Run(es), e) && e.Execute? && Publishes(Run(es))
      && (|e.oracle.sorted| < 3 || (e.oracle.putOk && !ReadsBack(e.oracle.sorted[..3])))
  {
    RunInvariant(es);
    var c := Run(es);
    if Enabled(c, e) && e.Execute? {
      if Publishes(c) {
        assert c.queue[0] in c.queue;
        PublishEffect(c, e.oracle);
      } else {
        QuietEffect(c, e.oracle);
      }
    }
  }

  /** When the reports hold no separators, a step panics exactly when it
      executes the publishing trigger of a snapshot of fewer than three. */
  lemma CleanReportsCrashBelowThree(es: seq<Event>, e: Event)
    requires !Run(es).crashed
    requires forall snapshot, r | snapshot in Reported(es) && r in snapshot :: CleanReport(r)
    ensures var c := Run(es);
      Step(c, e).crashed <==>
        Enabled(c, e) && e.Execute? && Publishes(c) && c.queue[0].args.Some? && |c.queue[0].args.value| < 3
  {
    CrashesExactly(es, e);
    RunInvariant(es);
    var c := Run(es);
    if Enabled(c, e) && e.Execute? && Publishes(c) {
      assert c.queue[0] in c.queue;
      SameLength(c.queue[0].args.value, e.oracle.sorted);
      if |e.oracle.sorted| >= 3 { CleanReportsReadBack(c.queue[0].args.value, e.oracle.sorted); }
    }
  }

  lemma CleanReportsReadBack(snapshot: Snapshot, sorted: Snapshot)
    requires SortedPermutation(Newer, snapshot, sorted) && |sorted| >= 3
    requires forall r | r in snapshot :: CleanReport(r)
    ensures ReadsBack(sorted[..3])
  {
    var cs := sorted[..3];
    forall r | r in cs ensures CleanReport(r) { assert r in multiset(snapshot); }
    NamesRoundTrip(cs, [cs[0].nodeName, cs[1].nodeName, cs[2].nodeName]);
    NamesReadIff(Text.Split(SpecOf(cs).members, ','));
  }

  // ----- Debouncing -----

  /** The snapshots of the callbacks that have queued their trigger. */
  ghost function Landed(queue: seq<Call>): seq<Snapshot> {
    if queue == [] then []
    else (if queue[0].trigger == InitialConfiguration && queue[0].args.Some? then [queue[0].args.value] else [])
         + Landed(queue[1..])
  }

  lemma LandedHead(queue: seq<Call>)
    requires queue != []
    ensures Landed(queue) == Landed([queue[0]]) + Landed(queue[1..])
    ensures Landed([queue[0]]) ==
            if queue[0].trigger == InitialConfiguration && queue[0].args.Some? then [queue[0].args.value] else []
  {
    assert [queue[0]][1..] == [];
  }

  lemma {:induction false} LandedAppend(queue: seq<Call>, call: Call)
    ensures Landed(queue + [call]) == Landed(queue) + Landed([call])
  {
    if queue == [] {
      assert [] + [call] == [call];
    } else {
      LandedAppend(queue[1..], call);
      assert (queue + [call])[1..] == queue[1..] + [call];
      LandedHead(queue);
      LandedHead(queue + [call]);
    }
  }

  /** Of two sequences that make up one element, one is empty. */
  lemma OneOfTwo(a: seq<Snapshot>, b: seq<Snapshot>, x: Snapshot)
    requires a + b == [x]
    ensures (a == [x] && b == []) || (a == [] && b == [x])
  {
    assert |a| + |b| == 1;
    if |a| == 1 { assert (a + b)[0] == a[0]; } else { assert (a + b)[0] == b[0]; }
  }

  /** The callbacks that have started and whose trigger has not been executed. */
  ghost function UnderWay(c: Ctrl): seq<Snapshot> {
    c.fired + Landed(c.queue)
  }

  /** Every publication that can still come of the snapshots taken in so far. */
  ghost function Outstanding(c: Ctrl): seq<Snapshot> {
    (if c.timer.AfterFunc? then [c.timer.candidates] else []) + UnderWay(c)
  }

  /** A snapshot is taken in while a callback is under way, when stopping the
      timer no longer helps. */
  ghost predicate Overtakes(c: Ctrl, e: Event) {
    && e.Execute? && Enabled(c, e)
    && c.phase == Configuration && c.queue[0].trigger == CandidateReport && UnderWay(c) != []
  }

  /** Cancellation is atomic: no snapshot overtakes a started callback. */
  ghost predicate AtomicRun(es: seq<Event>) {
    es == [] || (AtomicRun(es[..|es| - 1]) && !Overtakes(Run(es[..|es| - 1]), es[|es| - 1]))
  }

  /** The latest snapshot and nothing else is on its way out. */
  ghost predicate Debounced(c: Ctrl) {
    && ReportsCarrySnapshots(c.queue)
    && (c.phase != Monitoring ==> c.generated == [])
    && (c.phase == Init ==> c.latest == [])
    && Outstanding(c) == (if c.phase == Configuration && c.latest != [] then [c.latest] else [])
    && (c.timer.AfterFunc? ==> c.timer.due == c.arrived + Delay(|c.latest|))
    && (UnderWay(c) != [] ==> c.arrived + Delay(|c.latest|) <= c.now)
    && (forall s | s in c.generated :: Grounded(s, c.latest))
  }

  /** second is when the delay of n reports that arrived at that time is over: one
      second when all six are there, five from three on, fifteen below. */
  predicate DelayEnds(arrived: int, n: nat, second: int) {
    && (n == 6 ==> second == arrived + 1)
    && (n in {3, 4, 5} || n > 6 ==> second == arrived + 5)
    && (n in {1, 2} ==> second == arrived + 15)
  }

  /** The delay of the latest snapshot ends at this very second, */
  ghost predicate DelayEndsNow(c: Ctrl) {
    c.latest != [] && DelayEnds(c.arrived, |c.latest|, c.now)
  }

  /** has ended before, */
  ghost predicate DelayHasEnded(c: Ctrl) {
    c.latest != [] && exists second :: DelayEnds(c.arrived, |c.latest|, second) && second < c.now
  }

  /** or one of the two. */
  ghost predicate DelayIsOver(c: Ctrl) {
    DelayEndsNow(c) || DelayHasEnded(c)
  }

  lemma DelayInSeconds(c: Ctrl)
    requires c.latest != []
    ensures forall second: int :: DelayEnds(c.arrived, |c.latest|, second) <==> second == c.arrived + Delay(|c.latest|)
    ensures DelayEndsNow(c) <==> c.now == c.arrived + Delay(|c.latest|)
    ensures DelayHasEnded(c) <==> c.arrived + Delay(|c.latest|) < c.now
  {
    forall second: int ensures DelayEnds(c.arrived, |c.latest|, second) <==> second == c.arrived + Delay(|c.latest|) {}
    assert DelayEnds(c.arrived, |c.latest|, c.arrived + Delay(|c.latest|));
  }

  ghost predicate ReportsCarrySnapshots(queue: seq<Call>) {
    forall call | call in queue && call.trigger == CandidateReport :: call.args.Some?
  }

  lemma StepKeepsDebounced(c: Ctrl, e: Event, known: set<Snapshot>)
    requires Once(c) && Traced(c, known) && Debounced(c) && !Overtakes(c, e)
    ensures Debounced(Step(c, e))
  {
    if Enabled(c, e) {
      match e
      case Tick =>
      case Report(cs) => QueueingKeepsDebounced(c, Call(CandidateReport, Some(cs)));
      case Health => QueueingKeepsDebounced(c, Call(ContextValue, None));
      case Expire => ExpiryKeepsDebounced(c);
      case Land(i) => LandingKeepsDebounced(c, i);
      case Execute(o) =>
        if Publishes(c) {
          PublishKeepsDebounced(c, o, known);
        } else {
          QuietKeepsDebounced(c, o, known);
        }
    }
  }

  lemma QueueingKeepsDebounced(c: Ctrl, call: Call)
    requires Debounced(c) && call.trigger != InitialConfiguration
    requires call.trigger == CandidateReport ==> call.args.Some?
    ensures Debounced(c.(queue := c.queue + [call]))
  {
    LandedAppend(c.queue, call);
    LandedHead([call]);
    assert UnderWay(c.(queue := c.queue + [call])) == UnderWay(c);
  }

  /** Whatever is outstanding in the configuration phase is the latest snapshot. */
  lemma TimerOrUnderWay(c: Ctrl)
    requires Debounced(c)
    ensures c.timer.AfterFunc? ==> c.timer.candidates == c.latest && c.phase == Configuration && UnderWay(c) == []
    ensures UnderWay(c) != [] ==> UnderWay(c) == [c.latest] && c.phase == Configuration && !c.timer.AfterFunc?
  {
    if Outstanding(c) != [] {
      OneOfTwo(if c.timer.AfterFunc? then [c.timer.candidates] else [], UnderWay(c), c.latest);
    }
  }

  lemma ExpiryKeepsDebounced(c: Ctrl)
    requires Debounced(c) && Enabled(c, Expire)
    ensures Debounced(Step(c, Expire))
  {
    TimerOrUnderWay(c);
    assert c.fired == [] && Landed(c.queue) == [];
  }

  lemma LandingKeepsDebounced(c: Ctrl, i: nat)
    requires Debounced(c) && Enabled(c, Land(i))
    ensures Debounced(Step(c, Land(i)))
  {
    TimerOrUnderWay(c);
    OneOfTwo(c.fired, Landed(c.queue), c.latest);
    LandedMoves(c, c.latest);
  }

  lemma LandedMoves(c: Ctrl, x: Snapshot)
    requires c.fired == [x] && Landed(c.queue) == [] && ReportsCarrySnapshots(c.queue)
    ensures var c1 := c.(fired := [], queue := c.queue + [Call(InitialConfiguration, Some(x))]);
      UnderWay(c1) == [x] && UnderWay(c) == [x] && ReportsCarrySnapshots(c1.queue)
  {
    var call := Call(InitialConfiguration, Some(x));
    LandedAppend(c.queue, call);
    LandedHead([call]);
  }

  lemma QuietKeepsDebounced(c: Ctrl, o: Oracle, known: set<Snapshot>)
    requires Once(c) && Traced(c, known) && Debounced(c) && c.queue != [] && !Publishes(c)
    requires c.phase == Configuration && c.queue[0].trigger == CandidateReport ==> UnderWay(c) == []
    ensures Debounced(Executed(c, o))
  {
    QuietEffect(c, o);
    TimerOrUnderWay(c);
    assert c.queue[0] in c.queue;
    DroppingKeepsDebounced(c);
    if c.phase == Configuration && c.queue[0].trigger == CandidateReport {
      TakingInKeepsDebounced(c.(queue := c.queue[1..]), c.queue[0].args.value);
    }
  }

  lemma DroppingKeepsDebounced(c: Ctrl)
    requires Debounced(c) && c.queue != [] && !Publishes(c)
    requires c.phase != Configuration ==> UnderWay(c) == []
    ensures Debounced(c.(queue := c.queue[1..])) && UnderWay(c.(queue := c.queue[1..])) == UnderWay(c)
  {
    LandedHead(c.queue);
    assert Landed(c.queue) == Landed(c.queue[1..]);
  }

  lemma TakingInKeepsDebounced(c: Ctrl, cs: Snapshot)
    requires Debounced(c) && c.phase == Configuration && UnderWay(c) == []
    ensures Debounced(ConfigurationEntry(c, Some(cs)))
  {
    assert UnderWay(ConfigurationEntry(c, Some(cs))) == UnderWay(c);
  }

  lemma PublishKeepsDebounced(c: Ctrl, o: Oracle, known: set<Snapshot>)
    requires Once(c) && Traced(c, known) && Debounced(c) && Publishes(c) && Fits(c, o)
    ensures UnderWay(c) == [c.latest] && Debounced(Executed(c, o))
  {
    assert c.queue[0] in c.queue;
    HeadIsUnderWay(c);
    TimerOrUnderWay(c);
    PublishEffect(c, o);
    if |o.sorted| >= 3 { CutIsGrounded(c.latest, o.sorted); }
  }

  /** If one callback is under way and its trigger comes next, that is all. */
  lemma HeadIsUnderWay(c: Ctrl)
    requires Publishes(c) && c.queue[0].args.Some? && |UnderWay(c)| <= 1
    ensures UnderWay(c) == [c.queue[0].args.value] && c.fired == [] && Landed(c.queue[1..]) == []
  {
    LandedHead(c.queue);
    assert |UnderWay(c)| == |c.fired| + 1 + |Landed(c.queue[1..])|;
  }

  lemma {:induction false} AtomicRunsAreDebounced(es: seq<Event>)
    requires AtomicRun(es)
    ensures Debounced(Run(es))
  {
    if es != [] {
      var front := es[..|es| - 1];
      AtomicRunsAreDebounced(front);
      RunInvariant(front);
      StepKeepsDebounced(Run(front), es[|es| - 1], Reported(front));
    }
  }

  /** As long as no snapshot overtakes a started callback: in the configuration
      phase exactly one publication is outstanding if the last snapshot was not
      empty, and none otherwise; it carries that snapshot and is due its
      size-dependent delay after it arrived. A stored spec selects from the
      latest snapshot. */
  lemma Debounce(es: seq<Event>)
    requires AtomicRun(es)
    ensures var c := Run(es);
      && (c.phase == Configuration ==> Outstanding(c) == if c.latest != [] then [c.latest] else [])
      && (c.phase != Configuration ==> Outstanding(c) == [])
      && (c.timer.AfterFunc? ==> c.timer.candidates == c.latest && DelayEnds(c.arrived, |c.latest|, c.timer.due))
      && (UnderWay(c) != [] ==> DelayIsOver(c))
      && (forall s | s in c.stored :: Grounded(s, c.latest))
  {
    AtomicRunsAreDebounced(es);
    RunInvariant(es);
    var c := Run(es);
    TimerOrUnderWay(c);
    if Outstanding(c) != [] { DelayInSeconds(c); }
  }

  /** Expiries and queued triggers are not late. */
  ghost predicate Prompt(c: Ctrl, e: Event) {
    if c.fired != [] then e.Land?
    else if c.queue != [] then e.Execute?
    else if c.timer.AfterFunc? && c.timer.due <= c.now then e.Expire?
    else true
  }

  ghost predicate PromptRun(es: seq<Event>) {
    es == [] || (PromptRun(es[..|es| - 1]) && Prompt(Run(es[..|es| - 1]), es[|es| - 1]))
  }

  ghost predicate OnTime(c: Ctrl) {
    && |c.fired| + |c.queue| <= 1
    && (c.timer.AfterFunc? ==> c.now <= c.timer.due)
    && (UnderWay(c) != [] ==> c.now == c.arrived + Delay(|c.latest|))
  }

  lemma PromptStepsDoNotOvertake(c: Ctrl, e: Event)
    requires OnTime(c) && Prompt(c, e)
    ensures !Overtakes(c, e)
  {
    if c.fired == [] && c.queue != [] {
      LandedHead(c.queue);
      assert c.queue[1..] == [];
    }
  }

  lemma StepKeepsOnTime(c: Ctrl, e: Event, known: set<Snapshot>)
    requires Once(c) && Traced(c, known) && Debounced(c) && OnTime(c) && Prompt(c, e)
    ensures OnTime(Step(c, e))
  {
    if Enabled(c, e) {
      TimerOrUnderWay(c);
      match e
      case Tick =>
      case Expire =>
      case Execute(o) => ExecutedOnTime(c, o, known);
      case _ => QueuedOnTime(c, e);
    }
  }

  lemma ExecutedOnTime(c: Ctrl, o: Oracle, known: set<Snapshot>)
    requires Once(c) && Traced(c, known) && OnTime(c) && c.queue != [] && c.fired == []
    ensures OnTime(Executed(c, o))
  {
    assert c.queue[1..] == [];
    if Publishes(c) {
      assert c.queue[0] in c.queue;
      PublishEffect(c, o);
    } else {
      QuietEffect(c, o);
    }
  }

  lemma QueuedOnTime(c: Ctrl, e: Event)
    requires OnTime(c) && Prompt(c, e) && Enabled(c, e) && (e.Report? || e.Health? || e.Land?)
    ensures OnTime(Step(c, e))
  {
    assert c.queue == [];
    LandedHead(Step(c, e).queue);
  }

  lemma {:induction false} PromptRunsAreAtomic(es: seq<Event>)
    requires PromptRun(es)
    ensures AtomicRun(es) && OnTime(Run(es))
  {
    if es != [] {
      var front, e := es[..|es| - 1], es[|es| - 1];
      PromptRunsAreAtomic(front);
      AtomicRunsAreDebounced(front);
      RunInvariant(front);
      PromptStepsDoNotOvertake(Run(front), e);
      StepKeepsOnTime(Run(front), e, Reported(front));
    }
  }

  /** The latest snapshot is never decided, by a spec or by a panic, before its
      delay is over, and in a prompt run it is decided at that very second. */
  lemma DecidedOnTime(es: seq<Event>, e: Event)
    requires AtomicRun(es) && Run(es).phase != Monitoring && Step(Run(es), e).phase == Monitoring
    ensures DelayIsOver(Run(es)) && (PromptRun(es) ==> DelayEndsNow(Run(es)))
  {
    AtomicRunsAreDebounced(es);
    RunInvariant(es);
    var c := Run(es);
    OnlyPublishingMonitors(c, e);
    PublishKeepsDebounced(c, e.oracle, Reported(es));
    LatestIsNotEmpty(c);
    DelayInSeconds(c);
    if PromptRun(es) { PromptRunsAreAtomic(es); }
  }

  lemma LatestIsNotEmpty(c: Ctrl)
    requires Debounced(c) && UnderWay(c) != []
    ensures c.latest != []
  {
    assert Outstanding(c) != [];
  }

  lemma OnlyPublishingMonitors(c: Ctrl, e: Event)
    requires c.phase != Monitoring && Step(c, e).phase == Monitoring
    ensures e.Execute? && Enabled(c, e) && Publishes(c)
  {
    if Enabled(c, e) && e.Execute? && !Publishes(c) {
      QuietEffect(c, e.oracle);
    }
  }

  /** A spec is built only on the way to monitoring, so the same holds for it. */
  lemma PublishedOnTime(es: seq<Event>, e: Event)
    requires AtomicRun(es) && Step(Run(es), e).generated != Run(es).generated
    ensures DelayIsOver(Run(es)) && (PromptRun(es) ==> DelayEndsNow(Run(es)))
  {
    RunInvariant(es);
    GeneratingMonitors(Run(es), e, Reported(es));
    DecidedOnTime(es, e);
  }

  lemma GeneratingMonitors(c: Ctrl, e: Event, known: set<Snapshot>)
    requires Once(c) && Traced(c, known) && Step(c, e).generated != c.generated
    ensures c.phase == Configuration && Step(c, e).phase == Monitoring
  {
    OnlyPublishingGenerates(c, e);
    assert c.queue[0] in c.queue;
    PublishEffect(c, e.oracle);
  }

  /** Monitoring is only reached by handling the latest snapshot. */
  ghost predicate Concluded(c: Ctrl) {
    c.phase == Monitoring ==> if |c.latest| >= 3 then |c.generated| == 1 else c.crashed && c.generated == []
  }

  lemma StepKeepsConcluded(c: Ctrl, e: Event, known: set<Snapshot>)
    requires Once(c) && Traced(c, known) && Debounced(c) && Concluded(c)
    ensures Concluded(Step(c, e))
  {
    if Enabled(c, e) && e.Execute? {
      if Publishes(c) {
        PublishingConcludes(c, e.oracle, known);
      } else {
        QuietEffect(c, e.oracle);
      }
    }
  }

  lemma PublishingConcludes(c: Ctrl, o: Oracle, known: set<Snapshot>)
    requires Once(c) && Traced(c, known) && Debounced(c) && Publishes(c) && Fits(c, o)
    ensures Concluded(Executed(c, o))
  {
    assert c.queue[0] in c.queue;
    TimerOrUnderWay(c);
    HeadIsUnderWay(c);
    SameLength(c.latest, o.sorted);
    PublishEffect(c, o);
  }

  lemma {:induction false} AtomicRunsAreConcluded(es: seq<Event>)
    requires AtomicRun(es)
    ensures Concluded(Run(es))
  {
    if es != [] {
      var front := es[..|es| - 1];
      AtomicRunsAreConcluded(front);
      AtomicRunsAreDebounced(front);
      RunInvariant(front);
      StepKeepsConcluded(Run(front), es[|es| - 1], Reported(front));
    }
  }

  /** Progress: in every prompt run the latest snapshot has been decided once its
      delay is over. One spec has been built from it, or with fewer than three
      reports the controller has panicked. */
  lemma DecidedAfterTheDelay(es: seq<Event>)
    requires PromptRun(es)
    requires DelayHasEnded(Run(es))
    ensures var c := Run(es);
      && c.phase == Monitoring
      && if |c.latest| >= 3 then exists s :: c.generated == [s] && Grounded(s, c.latest)
         else c.crashed && c.generated == []
  {
    PromptRunsAreAtomic(es);
    AtomicRunsAreDebounced(es);
    AtomicRunsAreConcluded(es);
    var c := Run(es);
    DelayInSeconds(c);
    TimerOrUnderWay(c);
    if |c.generated| == 1 {
      assert c.generated == [c.generated[0]];
      assert c.generated[0] in c.generated;
    }
  }

  lemma OnlyPublishingGenerates(c: Ctrl, e: Event)
    requires Step(c, e).generated != c.generated
    ensures e.Execute? && Enabled(c, e) && Publishes(c)
  {
    if Enabled(c, e) && e.Execute? && !Publishes(c) {
      QuietEffect(c, e.oracle);
    }
  }

  // ----- When a snapshot does overtake a callback -----

  lemma RunStep(es: seq<Event>, e: Event)
    ensures Run(es + [e]) == Step(Run(es), e)
  {
    assert (es + [e])[..|es|] == es;
  }

  lemma RunSplit(es: seq<Event>, a: seq<Event>, b: seq<Event>)
    ensures Run(es + (a + b)) == Run(es + a + b)
  {
    assert es + (a + b) == es + a + b;
  }

  /** The callback of stale is under way and nothing has been built; the latest
      snapshot and those still queued are all in reports. */
  ghost predicate Stuck(c: Ctrl, stale: Snapshot, reports: set<Snapshot>) {
    && !c.crashed && c.phase == Configuration && c.rsCandidates == [] && c.generated == [] && c.stored == []
    && UnderWay(c) == [stale]
    && c.latest in reports
    && forall call | call in c.queue && call.trigger == CandidateReport :: call.args.Some? && call.args.value in reports
  }

  /** What becomes of a snapshot whose trigger is executed: the best three of it
      are published, or with fewer than three the controller panics. */
  ghost predicate Decided(c: Ctrl, snapshot: Snapshot) {
    && c.phase == Monitoring
    && if |snapshot| >= 3 then exists s :: c.stored == [s] && Grounded(s, snapshot)
       else c.crashed && c.stored == []
  }

  lemma ExecutingKeepsStuck(c: Ctrl, o: Oracle, stale: Snapshot, reports: set<Snapshot>)
    requires Stuck(c, stale, reports) && c.queue != [] && !Publishes(c)
    ensures Stuck(Executed(c, o), stale, reports) && Executed(c, o).queue == c.queue[1..]
    ensures Executed(c, o).fired == c.fired
  {
    QuietEffect(c, o);
    LandedHead(c.queue);
    assert c.queue[0] in c.queue;
    assert forall call | call in c.queue[1..] :: call in c.queue;
    assert Landed(c.queue) == Landed(c.queue[1..]);
  }

  lemma LandingKeepsStuck(c: Ctrl, stale: Snapshot, reports: set<Snapshot>)
    requires Stuck(c, stale, reports) && c.fired != []
    ensures Stuck(Step(c, Land(0)), stale, reports) && Step(c, Land(0)).fired == []
  {
    OneOfTwo(c.fired, Landed(c.queue), stale);
    LandedHead([Call(InitialConfiguration, Some(stale))]);
    LandedAppend(c.queue, Call(InitialConfiguration, Some(stale)));
  }

  lemma StuckIsDecided(c: Ctrl, stale: Snapshot, reports: set<Snapshot>) returns (o: Oracle)
    requires Stuck(c, stale, reports) && Publishes(c) && c.queue[0].args.Some?
    ensures Enabled(c, Execute(o)) && o.putOk && o.deployOk && SortedPermutation(Newer, stale, o.sorted)
    ensures var c1 := Executed(c, o); Decided(c1, stale) && c1.latest == c.latest
    ensures |stale| >= 3 ==> |o.sorted| >= 3 && Executed(c, o).stored == [SpecOf(o.sorted[..3])]
  {
    HeadIsUnderWay(c);
    NewerIsStrictWeakOrder();
    SortSeqSorts(Newer, stale);
    o := Oracle(SortSeq(Newer, stale), true, true);
    SameLength(stale, o.sorted);
    PublishEffect(c, o);
    if |stale| >= 3 { CutIsGrounded(stale, o.sorted); }
  }

  /** Executing what is queued leads to the decision. */
  lemma Drain(es: seq<Event>, stale: Snapshot, reports: set<Snapshot>) returns (more: seq<Event>)
    requires Stuck(Run(es), stale, reports) && Run(es).fired == []
    ensures Decided(Run(es + more), stale) && Run(es + more).latest in reports
    decreases |Run(es).queue|
  {
    var c := Run(es);
    if c.queue[0].trigger == InitialConfiguration {
      RunInvariant(es);
      assert c.queue[0] in c.queue;
      var o := StuckIsDecided(c, stale, reports);
      RunStep(es, Execute(o));
      more := [Execute(o)];
    } else {
      var e := Execute(Oracle([], true, true));
      ExecutingKeepsStuck(c, e.oracle, stale, reports);
      RunStep(es, e);
      var rest := Drain(es + [e], stale, reports);
      RunSplit(es, [e], rest);
      more := [e] + rest;
    }
  }

  /** The converse of Debounce: as soon as a snapshot overtakes a callback, the
      older snapshot can still be the one that decides, although the latest is
      by then one of those that were queued behind it. */
  lemma OvertakenStillGoesOut(es: seq<Event>, e: Event) returns (more: seq<Event>)
    requires AtomicRun(es) && Overtakes(Run(es), e)
    ensures Decided(Run(es + [e] + more), Run(es).latest)
    ensures exists call | call in Run(es).queue && call.trigger == CandidateReport ::
              call.args == Some(Run(es + [e] + more).latest)
  {
    var c := Run(es);
    var stale := c.latest;
    AtomicRunsAreDebounced(es);
    RunInvariant(es);
    var reports := set call | call in c.queue && call.trigger == CandidateReport && call.args.Some? :: call.args.value;
    OvertakingGetsStuck(c, e.oracle, reports);
    RunStep(es, e);
    more := LandAndDrain(es + [e], stale, reports);
  }

  lemma Landing(es: seq<Event>, stale: Snapshot, reports: set<Snapshot>) returns (landed: seq<Event>)
    requires Stuck(Run(es), stale, reports) && Run(es).fired != []
    ensures landed == es + [Land(0)] && Stuck(Run(landed), stale, reports) && Run(landed).fired == []
  {
    landed := es + [Land(0)];
    LandingKeepsStuck(Run(es), stale, reports);
    RunStep(es, Land(0));
  }

  lemma LandAndDrain(es: seq<Event>, stale: Snapshot, reports: set<Snapshot>) returns (more: seq<Event>)
    requires Stuck(Run(es), stale, reports)
    ensures Decided(Run(es + more), stale) && Run(es + more).latest in reports
  {
    if Run(es).fired == [] {
      more := Drain(es, stale, reports);
    } else {
      var landed := Landing(es, stale, reports);
      var rest := Drain(landed, stale, reports);
      RunSplit(es, [Land(0)], rest);
      more := [Land(0)] + rest;
    }
  }

  lemma OvertakingGetsStuck(c: Ctrl, o: Oracle, reports: set<Snapshot>)
    requires Once(c) && Debounced(c) && Overtakes(c, Execute(o))
    requires forall call | call in c.queue && call.trigger == CandidateReport ::
               call.args.Some? && call.args.value in reports
    ensures Stuck(Executed(c, o), c.latest, reports)
  {
    QuietEffect(c, o);
    TimerOrUnderWay(c);
    LandedHead(c.queue);
    assert c.queue[0] in c.queue;
    assert forall call | call in c.queue[1..] :: call in c.queue;
    assert Landed(c.queue) == Landed(c.queue[1..]);
  }

  // ----- Runs that exist -----

  /** Run(es) waits in the configuration phase for a timer of snapshot that has
      just expired and whose callback has not queued its trigger. */
  ghost predicate CallbackStarted(c: Ctrl, snapshot: Snapshot) {
    && !c.crashed && c.phase == Configuration && c.fired == [snapshot] && c.queue == [] && c.timer == NoTimer
    && c.rsCandidates == [] && c.stored == [] && c.generated == [] && c.latest == snapshot
  }

  ghost predicate OnlyReports(es: seq<Event>, snapshot: Snapshot) {
    forall e | e in es && e.Report? :: e.candidates == snapshot
  }

  lemma PromptNext(es: seq<Event>, e: Event)
    requires PromptRun(es) && Prompt(Run(es), e)
    ensures PromptRun(es + [e]) && Run(es + [e]) == Step(Run(es), e)
  {
    assert (es + [e])[..|es|] == es;
  }

  /** Time can pass until the timer is due. */
  lemma {:induction false} TicksPass(es: seq<Event>, k: nat) returns (later: seq<Event>)
    requires !Run(es).crashed && PromptRun(es) && Run(es).fired == [] && Run(es).queue == []
    requires Run(es).timer.AfterFunc? ==> Run(es).now + k <= Run(es).timer.due
    ensures Run(later) == Run(es).(now := Run(es).now + k) && PromptRun(later)
    ensures forall e | e in later && e.Report? :: e in es
    decreases k
  {
    if k == 0 {
      later := es;
    } else {
      var before := TicksPass(es, k - 1);
      PromptNext(before, Tick);
      later := before + [Tick];
    }
  }

  /** The configuration phase has been entered, or the snapshot taken in. */
  ghost predicate Calm(c: Ctrl, timer: Timer, latest: Snapshot) {
    && c.phase == Configuration && c.timer == timer && c.latest == latest && c.fired == [] && c.queue == []
    && !c.crashed && c.rsCandidates == [] && c.stored == [] && c.generated == []
  }

  lemma CanEnterConfiguration() returns (es: seq<Event>)
    ensures Calm(Run(es), Watchdog, []) && Run(es).now == 0 && PromptRun(es) && forall e | e in es :: !e.Report?
  {
    var any := Execute(Oracle([], true, true));
    PromptNext([], any);
    QuietEffect(INITIAL, any.oracle);
    es := [] + [any];
  }

  lemma CanTakeIn(before: seq<Event>, snapshot: Snapshot) returns (es: seq<Event>)
    requires snapshot != [] && PromptRun(before) && Calm(Run(before), Watchdog, [])
    ensures PromptRun(es) && Run(es).now == Run(before).now
    ensures Calm(Run(es), AfterFunc(Run(es).now + Delay(|snapshot|), snapshot), snapshot)
    ensures forall e | e in es && e.Report? :: e in before || e.candidates == snapshot
  {
    var any := Execute(Oracle([], true, true));
    PromptNext(before, Report(snapshot));
    var queued := before + [Report(snapshot)];
    PromptNext(queued, any);
    QuietEffect(Run(queued), any.oracle);
    es := queued + [any];
  }

  lemma CallbackCanStart(snapshot: Snapshot) returns (es: seq<Event>)
    requires snapshot != []
    ensures CallbackStarted(Run(es), snapshot) && OnlyReports(es, snapshot) && PromptRun(es)
  {
    es := CanEnterConfiguration();
    es := CanTakeIn(es, snapshot);
    es := TicksPass(es, Delay(|snapshot|));
    PromptNext(es, Expire);
    es := es + [Expire];
  }

  /** Every non-empty snapshot has a prompt run that decides it: from three
      reports on it is published, with fewer the controller panics. */
  lemma EverySnapshotCanBeDecided(snapshot: Snapshot) returns (es: seq<Event>, sorted: Snapshot)
    requires snapshot != []
    ensures PromptRun(es) && OnlyReports(es, snapshot)
    ensures Decided(Run(es), snapshot) && SortedPermutation(Newer, snapshot, sorted)
    ensures |snapshot| >= 3 ==> |sorted| >= 3 && Run(es).stored == [SpecOf(sorted[..3])]
  {
    var started := CallbackCanStart(snapshot);
    PromptNext(started, Land(0));
    var landed := started + [Land(0)];
    LandingKeepsStuck(Run(started), snapshot, {snapshot});
    var o := StuckIsDecided(Run(landed), snapshot, {snapshot});
    PromptNext(landed, Execute(o));
    es, sorted := landed + [Execute(o)], o.sorted;
  }

  /** For any two snapshots there is a run in which the newer one is taken in
      before the started callback of the older one queues its trigger, and the
      older one is published. */
  lemma StaleSnapshotCanGoOut(stale: Snapshot, newer: Snapshot) returns (es: seq<Event>)
    requires |stale| >= 3
    ensures Run(es).latest == newer
    ensures exists s :: Run(es).stored == [s] && Grounded(s, stale)
  {
    var any := Execute(Oracle([], true, true));
    var started := CallbackCanStart(stale);
    PromptRunsAreAtomic(started);
    RunStep(started, Report(newer));
    es := started + [Report(newer)];
    assert es[..|es| - 1] == started;
    assert Run(es).queue == [Call(CandidateReport, Some(newer))];
    var more := OvertakenStillGoesOut(es, any);
    es := es + [any] + more;
  }

  // ----- The object -----

  class ControllerTask {
    var phase: Phase
    var timer: Timer
    var fired: seq<Snapshot>
    var queue: seq<Call>
    var candidates: Snapshot
    var lastMembers: Snapshot
    var lastSpec: Option<Spec>
    var generated: seq<Spec>
    var stored: seq<Spec>
    var crashed: bool
    var now: nat
    ghost var latest: Snapshot
    ghost var arrived: nat

    ghost function State(): Ctrl
      reads this
    {
      Ctrl(phase, timer, fired, queue, candidates, lastMembers, lastSpec, generated, stored,
           crashed, now, latest, arrived)
    }

    constructor ()
      ensures State() == INITIAL
    {
      phase, timer, fired, queue, candidates := Init, NoTimer, [], [Call(Start, None)], [];
      lastMembers, lastSpec, generated, stored := [], None, [], [];
      crashed, now, latest, arrived := false, 0, [], 0;
    }

    /** A snapshot arrives on the candidates channel. */
    method TakeReports(candidateReports: Snapshot)
      modifies this
      ensures State() == Step(old(State()), Report(candidateReports))
    {
      if !crashed && phase != Init {
        queue := queue + [Call(CandidateReport, Some(candidateReports))];
      }
    }

    /** The timer runs out and starts its callback. */
    method TimerExpires()
      modifies this
      ensures State() == Step(old(State()), Expire)
    {
      if !crashed && timer.AfterFunc? && timer.due <= now {
        timer, fired := NoTimer, fired + [timer.candidates];
      }
    }

    /** A started callback fires triggerInitialConfiguration. */
    method CallbackFires(i: nat)
      modifies this
      ensures State() == Step(old(State()), Land(i))
    {
      if !crashed && i < |fired| {
        queue := queue + [Call(InitialConfiguration, Some(fired[i]))];
        fired := fired[..i] + fired[i + 1..];
      }
    }

    method OnConfigurationEntry(args: Option<Snapshot>)
      modifies this
      ensures State() == ConfigurationEntry(old(State()), args)
    {
      timer := NoTimer;
      if args.None? { return; }
      var cs := args.value;
      latest, arrived := cs, now;
      var numOfCandidates := |cs|;
      if numOfCandidates == 0 { return; }
      if numOfCandidates == 6 {
        timer := AfterFunc(now + 1, cs);
      } else if numOfCandidates >= 3 {
        timer := AfterFunc(now + 5, cs);
      } else if numOfCandidates > 0 {
        timer := AfterFunc(now + 15, cs);
      }
    }

    method OnMonitoringEntry(args: Snapshot, putOk: bool, deployOk: bool) returns (ghost sorted: Snapshot)
      modifies this
      ensures SortedPermutation(Newer, args, sorted)
      ensures State() == MonitoringEntry(old(State()), sorted, putOk, deployOk)
    {
      var slice := SortCandidates(args);
      sorted := slice;
      var length := 3;
      if |slice| < 3 {
        length := |candidates|;
      }
      if length > |slice| {
        crashed := true;
        return;
      }
      var chosen := slice[0..length];
      var replCfg := GenerateReplConfig(chosen);
      if replCfg.None? {
        crashed := true;
        return;
      }
      generated := generated + [replCfg.value];
      PublishReplSpec(replCfg.value, chosen, putOk, deployOk);
    }

    method PublishReplSpec(spec: Spec, chosen: Snapshot, putOk: bool, deployOk: bool)
      modifies this
      ensures State() == Publish(old(State()), spec, chosen, putOk, deployOk)
    {
      if !putOk { return; }
      stored := stored + [spec];
      var members := GetMembers(spec);
      if members.None? {
        crashed := true;
        return;
      }
      if !deployOk { return; }
      lastMembers, lastSpec := chosen, Some(spec);
    }

    /** The machine takes the trigger at the head of its queue. */
    method FireNext(putOk: bool, deployOk: bool) returns (ghost o: Oracle)
      requires !crashed && queue != []
      modifies this
      ensures Fits(old(State()), o) && o.putOk == putOk && o.deployOk == deployOk
      ensures State() == Executed(old(State()), o)
    {
      var call := queue[0];
      queue := queue[1..];
      o := RunActions(Respond(MACHINE, phase, call.trigger), call.args, putOk, deployOk);
    }

    method RunActions(response: Response<Phase>, args: Option<Snapshot>, putOk: bool, deployOk: bool)
      returns (ghost o: Oracle)
      modifies this
      ensures args.Some? ==> SortedPermutation(Newer, args.value, o.sorted)
      ensures o.putOk == putOk && o.deployOk == deployOk
      ensures State() == React(old(State()), response, args, o)
    {
      o := Oracle([], putOk, deployOk);
      if args.Some? {
        NewerIsStrictWeakOrder();
        SortSeqSorts(Newer, args.value);
        o := o.(sorted := SortSeq(Newer, args.value));
      }
      match response
      case Unhandled =>
      case Ignored =>
      case Reenter =>
        if phase == Configuration { OnConfigurationEntry(args); }
      case Move(dest, _, _) =>
        phase := dest;
        if dest == Configuration {
          OnConfigurationEntry(args);
          timer := Watchdog;
        } else if args.None? {
          crashed := true;
        } else {
          ghost var sorted := OnMonitoringEntry(args.value, putOk, deployOk);
          o := o.(sorted := sorted);
        }
    }
  }

  /** The candidate slice, sorted in place. */
  method SortCandidates(candidates: Snapshot) returns (sorted: Snapshot)
    ensures SortedPermutation(Newer, candidates, sorted)
  {
    var slice := new MongoReport[|candidates|](i requires 0 <= i < |candidates| => candidates[i]);
    assert slice[..] == candidates;
    NewerIsStrictWeakOrder();
    SortInPlace(slice, Newer);
    sorted := slice[..];
  }
}

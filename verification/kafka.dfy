/** KafkaSM (kafka-control.go): one Kafka process and its monitor, driven by a
    hierarchical state machine; and the spec Kafka members are given (kafka.go). */
module KafkaLifecycle {
  import opened Candidates
  import opened MemberCodec
  import opened Stateless
  import opened Text

  datatype State = Init | Formatting | Starting | Startup | Running | ShuttingDown | Failed

  datatype Trigger = Start | StartServer | Done | Ready | KafkaExit | Shutdown

  /** The table of KafkaSM.configure. */
  const MACHINE: Machine<State, Trigger> := Machine(
    map[Startup := Starting, Running := Starting, ShuttingDown := Starting],
    map[(Init, Start) := Permit(Formatting),
        (Formatting, StartServer) := Permit(Startup),
        (Starting, KafkaExit) := Permit(Failed),
        (Startup, Ready) := Permit(Running),
        (Startup, Shutdown) := Permit(ShuttingDown),
        (Running, Shutdown) := Permit(ShuttingDown),
        (ShuttingDown, Done) := Permit(Running)])

  /** k.stop */
  datatype Channel = Nil | Open | Closed

  datatype Kafka = Kafka(
    state: State,
    queue: seq<Trigger>,
    stop: Channel,
    closes: nat,        // how often a stop channel was closed
    attempts: nat,      // calls of startKafkaProcess
    launched: bool,     // one of them succeeded
    cancelled: bool,
    crashed: bool,      // panicked: no configuration file, or close of a nil or closed channel
    exited: bool)       // os.Exit

  const INITIAL := Kafka(Init, [], Nil, 0, 0, false, false, false, false)

  /** Whether writing the configuration file, formatting the storage and
      starting the process succeed. */
  datatype Luck = Luck(configOk: bool, formatOk: bool, startOk: bool)

  /** close(k.stop) */
  function StopMonitor(k: Kafka): Kafka {
    if k.stop.Open? then k.(stop := Closed, closes := k.closes + 1) else k.(crashed := true)
  }

  /** OnExit of a state */
  function RunExit(k: Kafka, s: State): Kafka {
    if k.crashed then k
    else if s == Starting then StopMonitor(k) else k
  }

  function Enqueue(k: Kafka, t: Trigger): Kafka {
    k.(queue := k.queue + [t])
  }

  /** formatStorage panics when it cannot write its configuration file. */
  function FormattingEntry(k: Kafka, l: Luck): Kafka {
    if !l.configOk then k.(crashed := true)
    else if l.formatOk then Enqueue(k, StartServer)
    else k
  }

  /** OnEntry of a state. A trigger fired inside is queued. */
  function RunEntry(k: Kafka, s: State, l: Luck): Kafka {
    if k.crashed || k.exited then k
    else
      match s
      case Formatting => FormattingEntry(k, l)
      case Starting =>
        var k1 := k.(attempts := k.attempts + 1);
        if l.startOk then k1.(launched := true, stop := Open) else Enqueue(k1, KafkaExit)
      case Running => Enqueue(k, Done)
      case ShuttingDown => k.(cancelled := true)
      case Failed => k.(exited := true)
      case _ => k
  }

  function RunExits(k: Kafka, path: seq<State>): Kafka
    decreases path
  {
    if path == [] then k else RunExits(RunExit(k, path[0]), path[1..])
  }

  function RunEntries(k: Kafka, path: seq<State>, l: Luck): Kafka
    decreases path
  {
    if path == [] then k else RunEntries(RunEntry(k, path[0], l), path[1..], l)
  }

  /** A transition: exit actions, then the new state, then entry actions. */
  function Transition(k: Kafka, dest: State, exits: seq<State>, entries: seq<State>, l: Luck): Kafka {
    var k1 := RunExits(k, exits);
    if k1.crashed then k1 else RunEntries(k1.(state := dest), entries, l)
  }

  function Executed(k: Kafka, l: Luck): Kafka
    requires k.queue != []
  {
    var k1 := k.(queue := k.queue[1..]);
    match Respond(MACHINE, k.state, k.queue[0])
    case Move(dest, exits, entries) => Transition(k1, dest, exits, entries, l)
    case _ => k1
  }

  /** Anybody may fire any trigger at any time; the machine runs them in turn. */
  datatype Event = Fire(trigger: Trigger) | Execute(luck: Luck)

  function Step(k: Kafka, e: Event): Kafka {
    if k.crashed || k.exited then k
    else
      match e
      case Fire(t) => Enqueue(k, t)
      case Execute(l) => if k.queue == [] then k else Executed(k, l)
  }

  function Run(es: seq<Event>): Kafka {
    if es == [] then INITIAL else Step(Run(es[..|es| - 1]), es[|es| - 1])
  }

  predicate InStarting(s: State) {
    Includes(MACHINE, Starting, s)
  }

  /** How far the machine has come; it never goes back. */
  function Rank(s: State): nat {
    match s case Init => 0 case Formatting => 1 case Failed => 3 case _ => 2
  }

  ghost predicate Inv(k: Kafka) {
    && k.state != Starting
    && k.attempts == (if Rank(k.state) >= 2 then 1 else 0)
    && k.closes == (if k.stop.Closed? then 1 else 0)
    && (k.launched ==> !k.crashed && k.attempts == 1 && (k.stop.Open? <==> InStarting(k.state)) && !k.stop.Nil?)
    && (!k.launched ==> k.stop.Nil? && k.state != Failed)
    && (k.crashed ==> InStarting(k.state) || k.state == Formatting)
    && (k.exited <==> k.state == Failed)
  }

  lemma FormattingMove(k: Kafka, l: Luck)
    requires !k.crashed && !k.exited
    ensures Transition(k, Formatting, [Init], [Formatting], l) ==
            FormattingEntry(k.(state := Formatting), l)
  {
    ShortPaths(l);
  }

  lemma LaunchMove(k: Kafka, l: Luck)
    requires !k.crashed && !k.exited && k.attempts == 0
    ensures Transition(k, Startup, [Formatting], [Starting, Startup], l) ==
            if l.startOk then k.(state := Startup, attempts := 1, launched := true, stop := Open)
            else Enqueue(k.(state := Startup, attempts := 1), KafkaExit)
  {
    ShortPaths(l);
  }

  lemma ExitMove(k: Kafka, s: State, l: Luck)
    requires !k.crashed && !k.exited && s != Starting && k.launched == k.stop.Open? && k.closes == 0
    ensures Transition(k, Failed, [s, Starting], [Failed], l) ==
            if k.launched then k.(state := Failed, stop := Closed, closes := 1, exited := true) else k.(crashed := true)
  {
    ShortPaths(l);
  }

  lemma SubstateMove(k: Kafka, s: State, d: State, l: Luck)
    requires !k.crashed && !k.exited && s != Starting && d in {Running, ShuttingDown}
    ensures Transition(k, d, [s], [d], l) ==
            if d == Running then Enqueue(k.(state := d), Done) else k.(state := d, cancelled := true)
  {
    ShortPaths(l);
  }

  /** The effect of a trigger that neither starts the process nor ends it. */
  ghost predicate Harmless(k: Kafka, r: Kafka) {
    && Rank(r.state) == Rank(k.state) && r.state != Starting
    && r == k.(state := r.state, queue := r.queue, cancelled := r.cancelled)
  }

  /** The whole effect of a trigger, by state. */
  lemma ExecutedCases(k: Kafka, l: Luck)
    requires Inv(k) && !k.crashed && !k.exited && k.queue != []
    ensures var t, k1, r := k.queue[0], k.(queue := k.queue[1..]), Executed(k, l);
      if k.state == Init && t == Start then
        r == FormattingEntry(k1.(state := Formatting), l)
      else if k.state == Formatting && t == StartServer then
        r == (if l.startOk then k1.(state := Startup, attempts := 1, launched := true, stop := Open)
              else Enqueue(k1.(state := Startup, attempts := 1), KafkaExit))
      else if InStarting(k.state) && t == KafkaExit then
        r == (if k.launched then k1.(state := Failed, stop := Closed, closes := 1, exited := true)
              else k1.(crashed := true))
      else Harmless(k, r)
  {
    var t, k1 := k.queue[0], k.(queue := k.queue[1..]);
    var response := Respond(MACHINE, k.state, t);
    MovesOf(k.state, t);
    if response.Move? {
      if k.state == Init { FormattingMove(k1, l); }
      else if k.state == Formatting { LaunchMove(k1, l); }
      else if t == KafkaExit { ExitMove(k1, k.state, l); }
      else { SubstateMove(k1, k.state, response.dest, l); }
    }
  }

  /** Transitions whose paths hold one or two states, spelled out. */
  lemma ShortPaths(l: Luck)
    ensures forall x, y :: RunExits(x, [y]) == RunExit(x, y)
    ensures forall x, y, z :: RunExits(x, [y, z]) == RunExit(RunExit(x, y), z)
    ensures forall x, y :: RunEntries(x, [y], l) == RunEntry(x, y, l)
    ensures forall x, y, z :: RunEntries(x, [y, z], l) == RunEntry(RunEntry(x, y, l), z, l)
  {
    forall y, z: State ensures [y, z][1..] == [z] && [z][1..] == [] {}
  }

  /** The table meets what Stateless.ActionsRunAtTheBoundary asks for, so the
      actions of starting run exactly when it is entered or left as a whole. */
  lemma StartingBoundary(s: State, d: State)
    requires s != d
    ensures Starting in ExitPath(MACHINE, s, d) <==> InStarting(s) && !InStarting(d)
    ensures Starting in EntryPath(MACHINE, s, d) <==> InStarting(d) && !InStarting(s)
  {
    assert Shallow(MACHINE);
    ActionsRunAtTheBoundary(MACHINE, s, d, Starting);
  }

  /** The whole table: every state's response to every trigger, with the exit
      and entry actions the library runs. */
  lemma MovesOf(s: State, t: Trigger)
    requires s != Starting
    ensures Respond(MACHINE, s, t).Move? ==> var m := Respond(MACHINE, s, t);
      || (s == Init && t == Start && m == Move(Formatting, [Init], [Formatting]))
      || (s == Formatting && t == StartServer && m == Move(Startup, [Formatting], [Starting, Startup]))
      || (InStarting(s) && t == KafkaExit && m == Move(Failed, [s, Starting], [Failed]))
      || (InStarting(s) && t != KafkaExit
          && m.exits == [s] && m.entries == [m.dest] && m.dest in {Running, ShuttingDown})
    ensures Respond(MACHINE, s, t) ==
      if (s, t) == (Init, Start) then Move(Formatting, [Init], [Formatting])
      else if (s, t) == (Formatting, StartServer) then Move(Startup, [Formatting], [Starting, Startup])
      else if (s, t) == (Startup, Ready) then Move(Running, [Startup], [Running])
      else if (s, t) in {(Startup, Shutdown), (Running, Shutdown)} then Move(ShuttingDown, [s], [ShuttingDown])
      else if (s, t) == (ShuttingDown, Done) then Move(Running, [ShuttingDown], [Running])
      else if s in {Startup, Running, ShuttingDown} && t == KafkaExit then Move(Failed, [s, Starting], [Failed])
      else Unhandled
    ensures s == Failed ==> Respond(MACHINE, s, t) == Unhandled
    ensures InStarting(s) && t == KafkaExit ==> Respond(MACHINE, s, t).Move?
    ensures s == Init && t == Start ==> Respond(MACHINE, s, t).Move?
    ensures s == Formatting && t == StartServer ==> Respond(MACHINE, s, t).Move?
  {}

  lemma StepKeepsInv(k: Kafka, e: Event)
    requires Inv(k)
    ensures Inv(Step(k, e))
    ensures Rank(k.state) <= Rank(Step(k, e).state)
  {
    if !k.crashed && !k.exited && e.Execute? && k.queue != [] {
      ExecutedCases(k, e.luck);
    }
  }

  lemma {:induction false} RunInvariant(es: seq<Event>)
    ensures Inv(Run(es))
  {
    if es != [] {
      RunInvariant(es[..|es| - 1]);
      StepKeepsInv(Run(es[..|es| - 1]), es[|es| - 1]);
    }
  }

  /** In every run, whatever triggers are fired and in whatever order: the
      process is started at most once, a stop channel is closed at most once;
      and once the process has started, nothing ever panics, the monitor is on
      exactly inside the starting superstate, and it has been stopped exactly
      once when the machine has failed. */
  lemma Lifecycle(es: seq<Event>)
    ensures var k := Run(es);
      && k.attempts <= 1 && k.closes <= 1
      && (k.launched ==>
            && !k.crashed
            && (k.stop.Open? <==> InStarting(k.state))
            && (k.state == Failed <==> k.closes == 1))
  {
    RunInvariant(es);
  }

  /** The exit trigger is accepted in every substate. If the process never
      started, the exit of the superstate then closes a nil channel. */
  lemma ExitIsAcceptedEverywhere(es: seq<Event>, l: Luck)
    requires var k := Run(es);
      !k.crashed && !k.exited && InStarting(k.state) && k.queue != [] && k.queue[0] == KafkaExit
    ensures var k, k1 := Run(es), Run(es + [Execute(l)]);
      if k.launched then k1.state == Failed && k1.exited && k1.closes == 1 && !k1.crashed
      else k1.crashed && k1.state == k.state
  {
    RunInvariant(es);
    assert (es + [Execute(l)])[..|es|] == es;
    ExecutedCases(Run(es), l);
  }

  /** A failed start always puts the exit trigger on the queue, so the crash
      is on its way as soon as startKafkaProcess has failed. */
  lemma {:induction false} FailedStartQueuesExit(es: seq<Event>)
    ensures var k := Run(es); k.attempts == 1 && !k.launched && !k.crashed ==> KafkaExit in k.queue
  {
    if es != [] {
      var front, e := es[..|es| - 1], es[|es| - 1];
      FailedStartQueuesExit(front);
      RunInvariant(front);
      var k := Run(front);
      if !k.crashed && !k.exited && e.Execute? && k.queue != [] {
        ExecutedCases(k, e.luck);
        assert forall t | t in k.queue :: t == k.queue[0] || t in k.queue[1..];
        QueueOnlyGrows(k, e.luck);
      }
    }
  }

  /** Inside starting, in every run: an interrupt leads from startup or running to
      shuttingdown and cancels the process; being ready, or done with shutting
      down, leads to running; and any other trigger but the exit changes nothing. */
  lemma InterruptCancels(es: seq<Event>, l: Luck)
    requires var k := Run(es);
      !k.crashed && !k.exited && InStarting(k.state) && k.queue != [] && k.queue[0] != KafkaExit
    ensures var k, k1 := Run(es), Run(es + [Execute(l)]);
      var t, rest := k.queue[0], k.queue[1..];
      if t == Shutdown && k.state in {Startup, Running} then
        k1 == k.(state := ShuttingDown, cancelled := true, queue := rest)
      else if (k.state, t) in {(Startup, Ready), (ShuttingDown, Done)} then
        k1 == k.(state := Running, queue := rest + [Done])
      else k1 == k.(queue := rest)
  {
    RunInvariant(es);
    RunStep(es, Execute(l));
    InsideStarting(Run(es), l);
  }

  lemma InsideStarting(k: Kafka, l: Luck)
    requires Inv(k) && !k.crashed && !k.exited && InStarting(k.state) && k.queue != [] && k.queue[0] != KafkaExit
    ensures var t, rest := k.queue[0], k.queue[1..];
      if t == Shutdown && k.state in {Startup, Running} then
        Executed(k, l) == k.(state := ShuttingDown, cancelled := true, queue := rest)
      else if (k.state, t) in {(Startup, Ready), (ShuttingDown, Done)} then
        Executed(k, l) == k.(state := Running, queue := rest + [Done])
      else Executed(k, l) == k.(queue := rest)
  {
    MovesOf(k.state, k.queue[0]);
    var response := Respond(MACHINE, k.state, k.queue[0]);
    if response.Move? { SubstateMove(k.(queue := k.queue[1..]), k.state, response.dest, l); }
  }

  /** Before starting: a start writes the configuration and formats, and only
      then the server is started; without a configuration file it panics, and a
      failed format goes no further. */
  lemma StartFormatsFirst(es: seq<Event>, l: Luck)
    requires var k := Run(es); !k.crashed && !k.exited && k.state == Init && k.queue != []
    ensures var k, k1 := Run(es), Run(es + [Execute(l)]);
      var rest := k.queue[1..];
      if k.queue[0] != Start then k1 == k.(queue := rest)
      else if !l.configOk then k1 == k.(state := Formatting, queue := rest, crashed := true)
      else if !l.formatOk then k1 == k.(state := Formatting, queue := rest)
      else k1 == k.(state := Formatting, queue := rest + [StartServer])
  {
    RunInvariant(es);
    RunStep(es, Execute(l));
    ExecutedCases(Run(es), l);
    MovesOf(Init, Run(es).queue[0]);
  }

  /** The process is only ever cancelled because a shutdown was fired. */
  lemma {:induction false} CancelledOnlyByShutdown(es: seq<Event>)
    ensures Run(es).cancelled || Shutdown in Run(es).queue ==> Fire(Shutdown) in es
  {
    if es != [] {
      var front, e := es[..|es| - 1], es[|es| - 1];
      CancelledOnlyByShutdown(front);
      RunInvariant(front);
      assert es == front + [e];
      var k := Run(front);
      if !k.crashed && !k.exited && e.Execute? && k.queue != [] { CancelNeedsShutdown(k, e.luck); }
    }
  }

  lemma CancelNeedsShutdown(k: Kafka, l: Luck)
    requires Inv(k) && !k.crashed && !k.exited && k.queue != []
    ensures var r := Executed(k, l); r.cancelled || Shutdown in r.queue ==> k.cancelled || Shutdown in k.queue
  {
    assert forall t | t in k.queue[1..] :: t in k.queue;
    if InStarting(k.state) && k.queue[0] != KafkaExit {
      InsideStarting(k, l);
    } else {
      ExecutedCases(k, l);
      MovesOf(k.state, k.queue[0]);
    }
  }

  lemma RunStep(es: seq<Event>, e: Event)
    ensures Run(es + [e]) == Step(Run(es), e)
  {
    assert (es + [e])[..|es|] == es;
  }

  /** A run up to the start of the process, which works or fails. */
  lemma StartCanBeReached(startOk: bool) returns (es: seq<Event>)
    ensures var k := Run(es);
      && k.state == Startup && k.launched == startOk && !k.crashed && !k.exited
      && k.queue == if startOk then [] else [KafkaExit]
  {
    var go := Execute(Luck(true, true, startOk));
    RunStep([], Fire(Start));
    es := [] + [Fire(Start)];
    RunStep(es, go);
    RunInvariant(es);
    ExecutedCases(Run(es), go.luck);
    es := es + [go];
    RunStep(es, go);
    RunInvariant(es);
    ExecutedCases(Run(es), go.luck);
    es := es + [go];
  }

  /** Both ends are reached: a failed start ends in the panic, and a process
      that has started ends in failed when it exits. */
  lemma BothEndsAreReached() returns (bad: seq<Event>, good: seq<Event>)
    ensures Run(bad).crashed && Run(bad).attempts == 1 && !Run(bad).launched
    ensures Run(good).state == Failed && Run(good).launched && Run(good).closes == 1 && !Run(good).crashed
  {
    var go := Execute(Luck(true, true, true));
    bad := StartCanBeReached(false);
    ExitIsAcceptedEverywhere(bad, go.luck);
    RunStep(bad, go);
    RunInvariant(bad);
    ExecutedCases(Run(bad), go.luck);
    bad := bad + [go];
    good := StartCanBeReached(true);
    RunStep(good, Fire(KafkaExit));
    good := good + [Fire(KafkaExit)];
    ExitIsAcceptedEverywhere(good, go.luck);
    RunInvariant(good);
    RunStep(good, go);
    ExecutedCases(Run(good), go.luck);
    good := good + [go];
  }

  lemma QueueOnlyGrows(k: Kafka, l: Luck)
    requires Inv(k) && !k.crashed && !k.exited && k.queue != []
    ensures forall t | t in k.queue[1..] :: t in Executed(k, l).queue
  {
    if InStarting(k.state) && k.queue[0] != KafkaExit {
      InsideStarting(k, l);
    } else {
      ExecutedCases(k, l);
      MovesOf(k.state, k.queue[0]);
    }
  }

  /** Moves between substates run neither the superstate's entry nor its exit,
      so the process is not restarted and the monitor not touched; failed takes
      no trigger at all. */
  lemma SubstateMovesLeaveTheProcessAlone(es: seq<Event>, l: Luck)
    requires var k := Run(es); !k.crashed && !k.exited && InStarting(k.state) && k.queue != []
    ensures var k, k1 := Run(es), Run(es + [Execute(l)]);
      InStarting(k1.state) && !k1.crashed ==>
        (k1.attempts, k1.launched, k1.stop, k1.closes) == (k.attempts, k.launched, k.stop, k.closes)
  {
    RunInvariant(es);
    assert (es + [Execute(l)])[..|es|] == es;
    ExecutedCases(Run(es), l);
  }

  class KafkaSM {
    var state: State
    var queue: seq<Trigger>
    var stop: Channel
    var closes: nat
    var attempts: nat
    var launched: bool
    var cancelled: bool
    var crashed: bool
    var exited: bool

    ghost function Value(): Kafka
      reads this
    {
      Kafka(state, queue, stop, closes, attempts, launched, cancelled, crashed, exited)
    }

    constructor ()
      ensures Value() == INITIAL
    {
      state, queue, stop, closes, attempts := Init, [], Nil, 0, 0;
      launched, cancelled, crashed, exited := false, false, false, false;
    }

    method Exit(s: State)
      modifies this
      ensures Value() == RunExit(old(Value()), s)
    {
      if crashed { return; }
      if s == Starting {
        if stop.Open? {
          stop, closes := Closed, closes + 1;
        } else {
          crashed := true;
        }
      }
    }

    method Enter(s: State, luck: Luck)
      modifies this
      ensures Value() == RunEntry(old(Value()), s, luck)
    {
      if crashed || exited { return; }
      if s == Formatting {
        if !luck.configOk {
          crashed := true;
        } else if luck.formatOk {
          queue := queue + [StartServer];
        }
      } else if s == Starting {
        attempts := attempts + 1;
        if luck.startOk {
          launched, stop := true, Open;
        } else {
          queue := queue + [KafkaExit];
        }
      } else if s == Running {
        queue := queue + [Done];
      } else if s == ShuttingDown {
        cancelled := true;
      } else if s == Failed {
        exited := true;
      }
    }

    method FireNext(luck: Luck)
      requires !crashed && !exited && queue != []
      modifies this
      ensures Value() == Step(old(Value()), Execute(luck))
    {
      var response := Respond(MACHINE, state, queue[0]);
      queue := queue[1..];
      if response.Move? {
        Move(response.dest, response.exits, response.entries, luck);
      }
    }

    method Move(dest: State, exits: seq<State>, entries: seq<State>, luck: Luck)
      modifies this
      ensures Value() == Transition(old(Value()), dest, exits, entries, luck)
    {
      ghost var before := Value();
      for i := 0 to |exits|
        invariant RunExits(Value(), exits[i..]) == RunExits(before, exits)
      {
        Exit(exits[i]);
      }
      if crashed { return; }
      state := dest;
      ghost var moved := Value();
      for i := 0 to |entries|
        invariant RunEntries(Value(), entries[i..], luck) == RunEntries(moved, entries, luck)
      {
        Enter(entries[i], luck);
      }
    }
  }

  // ----- The spec -----

  /** KafkaReplSetSpec */
  datatype KafkaSpec = KafkaSpec(
    bootstrapServers: string,
    bootstrapServersStorage: string,
    clusterId: string,
    members: seq<string>)

  function Server(m: KafkaReport): string {
    m.controllerAddr + ":" + m.controllerPort
  }

  function StorageServer(m: KafkaReport): string {
    m.nodeId + "@" + m.controllerAddr + ":" + m.controllerPort + ":" + m.storageId
  }

  function Mapped<A, B>(f: A -> B, s: seq<A>): seq<B> {
    seq(|s|, i requires 0 <= i < |s| => f(s[i]))
  }

  /** generateReplConfig: three lists built in one loop. An empty list of
      candidates gives an empty spec. */
  method GenerateReplConfig(cs: seq<KafkaReport>, clusterId: string) returns (spec: KafkaSpec)
    ensures spec == KafkaSpec(Join(Mapped(Server, cs), ','), Join(Mapped(StorageServer, cs), ','), clusterId,
                              Mapped((c: KafkaReport) => c.nodeName, cs))
  {
    var servers, storage, members: seq<string> := [], [], [];
    for i := 0 to |cs|
      invariant servers == Mapped(Server, cs[..i])
      invariant storage == Mapped(StorageServer, cs[..i])
      invariant members == Mapped((c: KafkaReport) => c.nodeName, cs[..i])
    {
      servers := servers + [Server(cs[i])];
      storage := storage + [StorageServer(cs[i])];
      members := members + [cs[i].nodeName];
    }
    assert cs[..|cs|] == cs;
    spec := KafkaSpec(Join(servers, ','), Join(storage, ','), clusterId, members);
  }

  predicate CleanKafka(c: KafkaReport) {
    ',' !in c.controllerAddr && ',' !in c.controllerPort && ',' !in c.nodeId && ',' !in c.storageId
  }

  /** No field holds a separator of the entries. */
  predicate CleanFields(c: KafkaReport) {
    && Clean(c.controllerAddr) && Clean(c.controllerPort) && Clean(c.nodeId) && Clean(c.storageId)
    && '@' !in c.controllerAddr && '@' !in c.controllerPort && '@' !in c.nodeId && '@' !in c.storageId
  }

  /** An entry of the first list reads back as address and port, one of the
      second as node id, address, port and storage id. */
  lemma EntriesReadBack(c: KafkaReport)
    requires CleanFields(c)
    ensures Split(Server(c), ':') == [c.controllerAddr, c.controllerPort]
    ensures var parts := Split(StorageServer(c), '@');
      && |parts| == 2 && parts[0] == c.nodeId
      && Split(parts[1], ':') == [c.controllerAddr, c.controllerPort, c.storageId]
  {
    TwoTokens(c.controllerAddr, c.controllerPort);
    assert Server(c) == c.controllerAddr + [':'] + c.controllerPort;
    var tail := c.controllerAddr + [':'] + (c.controllerPort + [':'] + c.storageId);
    ThreeTokens(c.controllerAddr, c.controllerPort, c.storageId);
    assert StorageServer(c) == c.nodeId + ['@'] + tail;
    SplitAtSeparator(c.nodeId, tail, '@');
    SplitAtSeparator(tail, [], '@');
  }

  lemma TwoTokens(a: string, b: string)
    requires Clean(a) && Clean(b)
    ensures Split(a + [':'] + b, ':') == [a, b]
  {
    SplitAtSeparator(a, b, ':');
    SplitAtSeparator(b, [], ':');
  }

  lemma ThreeTokens(a: string, b: string, c: string)
    requires Clean(a) && Clean(b) && Clean(c)
    ensures Split(a + [':'] + (b + [':'] + c), ':') == [a, b, c]
  {
    SplitAtSeparator(a, b + [':'] + c, ':');
    TwoTokens(b, c);
  }

  /** The two server lists read back one entry per candidate, in order. */
  lemma ServerListsRoundTrip(cs: seq<KafkaReport>)
    requires cs != [] && forall c | c in cs :: CleanKafka(c)
    ensures Split(Join(Mapped(Server, cs), ','), ',') == Mapped(Server, cs)
    ensures Split(Join(Mapped(StorageServer, cs), ','), ',') == Mapped(StorageServer, cs)
  {
    forall e | e in Mapped(Server, cs) ensures ',' !in e {
      var i :| 0 <= i < |cs| && Mapped(Server, cs)[i] == e;
      assert CleanKafka(cs[i]);
    }
    forall e | e in Mapped(StorageServer, cs) ensures ',' !in e {
      var i :| 0 <= i < |cs| && Mapped(StorageServer, cs)[i] == e;
      assert CleanKafka(cs[i]);
      assert e == StorageServer(cs[i]);
    }
    SplitOfJoin(Mapped(Server, cs), ',');
    SplitOfJoin(Mapped(StorageServer, cs), ',');
  }
}

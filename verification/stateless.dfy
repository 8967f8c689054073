/** The state-machine library both controllers are configured with
    (github.com/qmuntal/stateless, vendored): permit tables, one level of
    superstates, and which exit and entry actions a transition runs. */
module Stateless {
  import opened Options

  /** Permit(t, dest) and PermitReentry(t) */
  datatype Handler<+S> = Permit(dest: S) | Reentry

  datatype Machine<!S(==), !T(==)> = Machine(parent: map<S, S>, handlers: map<(S, T), Handler<S>>)

  /** What firing a trigger does: nothing but an error, nothing, the entry
      actions of the same state, or a move with its exit and entry actions. */
  datatype Response<+S> = Unhandled | Ignored | Reenter | Move(dest: S, exits: seq<S>, entries: seq<S>)

  /** Superstates have no superstate of their own and declare no re-entry. */
  ghost predicate Shallow<S(!new), T(!new)>(m: Machine<S, T>) {
    && (forall s | s in m.parent :: m.parent[s] !in m.parent)
    && (forall s, t | (s, t) in m.handlers && m.handlers[(s, t)].Reentry? :: s !in m.parent.Values)
  }

  /** stateRepresentation.FindHandler: the state's own table, then its superstate's. */
  function FindHandler<S, T>(m: Machine<S, T>, s: S, t: T): Option<Handler<S>> {
    if (s, t) in m.handlers then Some(m.handlers[(s, t)])
    else if s in m.parent && (m.parent[s], t) in m.handlers then Some(m.handlers[(m.parent[s], t)])
    else None
  }

  /** stateRepresentation.IncludeState: s itself or one of its substates. */
  predicate Includes<S, T>(m: Machine<S, T>, s: S, x: S) {
    x == s || (x in m.parent && m.parent[x] == s)
  }

  /** stateRepresentation.Exit: own exit actions, then the superstate's when
      the destination lies outside it. */
  function ExitPath<S, T>(m: Machine<S, T>, s: S, d: S): seq<S> {
    if Includes(m, s, d) then []
    else if s !in m.parent then [s]
    else if m.parent[s] == d then [s]
    else if Includes(m, m.parent[s], d) then [s]
    else [s, m.parent[s]]
  }

  /** stateRepresentation.Enter: the superstate's entry actions when the
      source lies outside it, then the own ones. */
  function EntryPath<S, T>(m: Machine<S, T>, s: S, d: S): seq<S> {
    if Includes(m, d, s) then []
    else if d !in m.parent then [d]
    else if Includes(m, m.parent[d], s) then [d]
    else [m.parent[d], d]
  }

  /** StateMachine.internalFireOne */
  function Respond<S, T>(m: Machine<S, T>, s: S, t: T): Response<S> {
    match FindHandler(m, s, t)
    case None => Unhandled
    case Some(Reentry) => Reenter
    case Some(Permit(d)) => if d == s then Ignored else Move(d, ExitPath(m, s, d), EntryPath(m, s, d))
  }

  /** A state's own table comes before its superstate's, and a move that would
      lead back to the very same state is not taken. */
  lemma OwnTableFirst<S(!new), T(!new)>(m: Machine<S, T>, s: S, t: T)
    ensures (s, t) in m.handlers ==> var h := m.handlers[(s, t)];
      && (h.Reentry? ==> Respond(m, s, t) == Reenter)
      && (h.Permit? && h.dest == s ==> Respond(m, s, t) == Ignored)
      && (h.Permit? && h.dest != s ==> Respond(m, s, t).Move? && Respond(m, s, t).dest == h.dest)
    ensures (s, t) !in m.handlers && s in m.parent && (m.parent[s], t) in m.handlers ==>
      m.handlers[(m.parent[s], t)] == Permit(s) ==> Respond(m, s, t) == Ignored
  {}

  /** A state's actions run exactly when the transition crosses its boundary:
      its exit when it is left as a whole, its entry when it is entered from
      outside. In particular moves between substates leave the superstate alone. */
  lemma ActionsRunAtTheBoundary<S(!new), T(!new)>(m: Machine<S, T>, s: S, d: S, x: S)
    requires Shallow(m) && s != d
    ensures x in ExitPath(m, s, d) <==> Includes(m, x, s) && !Includes(m, x, d)
    ensures x in EntryPath(m, s, d) <==> Includes(m, x, d) && !Includes(m, x, s)
  {
    if s in m.parent { assert m.parent[s] !in m.parent; }
    if d in m.parent { assert m.parent[d] !in m.parent; }
  }
}

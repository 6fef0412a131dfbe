/** A run of four commands that leaves a recovery stuck: a session is acquired, an incident
    of its agent is created with one artifact, it is sealed with one intended recovery, and
    recovered by another. */
module StuckRun {
  import opened States
  import opened Records
  import opened Replay
  import opened Commands
  import opened Invariant
  import opened LeaseCommands
  import opened Agreement
  import opened Lifecycle
  import opened Effects
  import opened TransactionEffects
  import opened RetirementEffects
  import opened Outcomes
  import opened Recoveries
  import Limits

  /** The environment of a move: one clock reading, and identities of its own. */
  function At(k: nat): Env { Env(k, k, Ids(k, k, k, k, k, k, k, k, k)) }

  const WANTED := IncidentIdentity(1, 1, 1, 1, 0, 0, 0, 0, 1, 0)
  const FOUND := Evidence(0, [Artifact(1, 1, 1)])
  const SEALING := Intended(AgentResource, 1)
  const RECOVERY := Intended(AgentResource, 2)

  const ACQUIRE := Owner(AcquireCommand(1, 1, Limits.PROVENANCE, 10))
  const CREATE := CreateIncidentCommand(WANTED, FOUND)
  const SEAL := TransitionIncidentCommand(2, 1, IncidentEvidenceSealed, {SEALING}, {}, false)
  const RECOVER := RecoverIncidentCommand(2, 2, AgentResource, 2, 1)

  const FIRST := Move(ACQUIRE, At(1))

  function OnIt(c: IncidentCommand, k: nat): Move { Move(OnIncident(c), At(k)) }

  /** One session with an active lease and an agent workspace of one generation. */
  ghost predicate Acquired(s: State) {
    && s.sessions.Keys == {1} && s.leases.Keys == {1} && s.agents.Keys == {1} && s.execs == map[] && s.targets == map[]
    && s.leases[1].identity.sessionId == 1 && s.leases[1].identity.agentId == 1 && s.leases[1].agentGeneration == 1
    && s.leases[1].state.LeaseActive? && s.leases[1].termination.Empty() && s.leases[1].expiresAt == 11
    && s.leases[1].id == 1
    && s.agents[1].sessionId == 1 && s.agents[1].current == 1 && |s.agents[1].generations| == 1
    && s.agents[1].generations[0].identity.generation == 1 && s.agents[1].generations[0].identity.workspaceId == 1
  }

  /** And one incident of that agent, in a state, at a revision, with some actions. */
  ghost predicate Stage(s: State, state: IncidentState, revision: nat, actions: set<Action>) {
    && Acquired(s) && s.incidents.Keys == {2}
    && var v := s.incidents[2];
    && v.id == 2 && v.state == state && v.revision == revision && v.recoveryActions == actions
    && v.identity == WANTED.(occurredAt := 2) && v.evidence == FOUND
  }

  // -------------------------------------------------------------------- what is permitted

  lemma FirstAllowed()
    ensures Allowed(START, FIRST) && Handle(START.state, ACQUIRE, At(1)).Written?
  {}

  lemma LaterAllowed(a: Sys, c: IncidentCommand, k: nat)
    requires Acquired(a.state) && 2 <= k && a.clock <= k && k !in a.state.incidents
    ensures Allowed(a, OnIt(c, k))
  {
    IncidentAllowed(a, c, At(k));
  }

  lemma CreateWritten(s: State)
    requires Acquired(s)
    ensures Handle(s, OnIncident(CREATE), At(2)).Written?
  {
    IncidentHandled(s, CREATE, At(2));
  }

  lemma SealWritten(s: State)
    requires Stage(s, IncidentOpen, 1, {})
    ensures Handle(s, OnIncident(SEAL), At(3)).Written?
  {
    IncidentHandled(s, SEAL, At(3));
  }

  lemma RecoverWritten(s: State)
    requires Stage(s, IncidentEvidenceSealed, 2, {SEALING})
    ensures Handle(s, OnIncident(RECOVER), At(4)).Written?
  {
    IncidentHandled(s, RECOVER, At(4));
  }

  // ------------------------------------------------------------------------ what is done

  lemma AcquireDone(t: State)
    requires Acquires(EMPTY, t, 1, 1, Limits.PROVENANCE, 10, At(1))
    ensures Acquired(t) && t.incidents == map[]
  {}

  lemma CreateDone(s: State, t: State)
    requires Acquired(s) && s.incidents == map[] && CreatesIncident(s, t, WANTED, FOUND, At(2))
    ensures Stage(t, IncidentOpen, 1, {})
  {}

  lemma SealDone(s: State, t: State)
    requires Stage(s, IncidentOpen, 1, {})
            && MovesIncident(s, t, 2, IncidentEvidenceSealed, {SEALING}, {}, false, At(3))
    ensures Stage(t, IncidentEvidenceSealed, 2, {SEALING})
  {}

  lemma RecoverDone(s: State, t: State)
    requires Stage(s, IncidentEvidenceSealed, 2, {SEALING}) && Recovers(s, t, 2, AgentResource, 2, 1, At(4))
    ensures 2 in t.incidents && t.incidents[2].state.IncidentRecovering?
            && t.incidents[2].recoveryActions == {SEALING, RECOVERY}
  {}

  // ------------------------------------------------------------------------- step by step

  lemma Effect(a: Sys, c: IncidentCommand, k: nat)
    requires Consistent(a) && Allowed(a, OnIt(c, k)) && Handle(a.state, OnIncident(c), At(k)).Written?
    ensures DoesIncident(a.state, c, At(k), Step(a, OnIt(c, k)).state)
  {
    StepFolds(a, OnIt(c, k));
    InvFiled(a.state);
    IncidentHandled(a.state, c, At(k));
    IncidentsDo(a.state, c, At(k));
  }

  lemma FirstEffect()
    requires Consistent(START) && Allowed(START, FIRST) && Handle(START.state, ACQUIRE, At(1)).Written?
    ensures Acquires(EMPTY, Step(START, FIRST).state, 1, 1, Limits.PROVENANCE, 10, At(1))
  {
    StepFolds(START, FIRST);
    InvFiled(START.state);
    OwnersDo(START.state, ACQUIRE.owner, At(1));
  }

  /** A run from the empty journal and where it leads. */
  ghost predicate Led(moves: seq<Move>, a: Sys, clock: Time) {
    AllAllowed(START, moves) && a == After(START, moves) && a.clock == clock
  }

  lemma LedConsistent(moves: seq<Move>, a: Sys, clock: Time)
    requires Led(moves, a, clock)
    ensures Consistent(a)
  {
    StartConsistent();
    AfterConsistent(START, moves);
  }

  lemma LedOn(moves: seq<Move>, a: Sys, clock: Time, m: Move)
    requires Led(moves, a, clock) && Allowed(a, m)
    ensures Led(moves + [m], Step(a, m), m.env.stamp)
  {
    AfterOneMore(START, moves, m);
  }

  /** One more command on the incident. */
  lemma LedOnIt(moves: seq<Move>, a: Sys, clock: Time, c: IncidentCommand, k: nat)
    requires Led(moves, a, clock) && Allowed(a, OnIt(c, k)) && Handle(a.state, OnIncident(c), At(k)).Written?
    ensures Led(moves + [OnIt(c, k)], Step(a, OnIt(c, k)), k)
            && DoesIncident(a.state, c, At(k), Step(a, OnIt(c, k)).state)
  {
    LedConsistent(moves, a, clock);
    LedOn(moves, a, clock, OnIt(c, k));
    Effect(a, c, k);
  }

  lemma LedFirst()
    ensures Led([], START, 0) && Allowed(START, FIRST)
            && Acquires(EMPTY, Step(START, FIRST).state, 1, 1, Limits.PROVENANCE, 10, At(1))
  {
    StartConsistent();
    AfterNothing(START);
    FirstAllowed();
    FirstEffect();
  }

  lemma First() returns (moves: seq<Move>, a: Sys)
    ensures Led(moves, a, 1) && Acquired(a.state) && a.state.incidents == map[]
  {
    LedFirst();
    moves, a := [] + [FIRST], Step(START, FIRST);
    LedOn([], START, 0, FIRST);
    AcquireDone(a.state);
  }

  ghost predicate Accepted(s: State, c: IncidentCommand, k: nat) { Handle(s, OnIncident(c), At(k)).Written? }

  lemma LedOnAccepted(moves: seq<Move>, a: Sys, clock: Time, c: IncidentCommand, k: nat)
      returns (more: seq<Move>, b: Sys)
    requires Led(moves, a, clock) && Allowed(a, OnIt(c, k)) && Accepted(a.state, c, k)
    ensures Led(more, b, k) && DoesIncident(a.state, c, At(k), b.state)
  {
    more, b := moves + [OnIt(c, k)], Step(a, OnIt(c, k));
    LedOnIt(moves, a, clock, c, k);
  }

  /** The commands by what they do to the stages, rather than by what they are. */
  lemma CreateCommand(s: State) returns (c: IncidentCommand)
    requires Acquired(s) && s.incidents == map[]
    ensures Accepted(s, c, 2) && forall t :: DoesIncident(s, c, At(2), t) ==> Stage(t, IncidentOpen, 1, {})
  {
    c := CREATE;
    CreateWritten(s);
    forall t | DoesIncident(s, c, At(2), t) ensures Stage(t, IncidentOpen, 1, {}) { CreateDone(s, t); }
  }

  lemma SealCommand(s: State) returns (c: IncidentCommand)
    requires Stage(s, IncidentOpen, 1, {})
    ensures Accepted(s, c, 3) && forall t ::
            DoesIncident(s, c, At(3), t) ==> Stage(t, IncidentEvidenceSealed, 2, {SEALING})
  {
    c := SEAL;
    SealWritten(s);
    forall t | DoesIncident(s, c, At(3), t) ensures Stage(t, IncidentEvidenceSealed, 2, {SEALING}) { SealDone(s, t); }
  }

  lemma RecoverCommand(s: State) returns (c: IncidentCommand)
    requires Stage(s, IncidentEvidenceSealed, 2, {SEALING})
    ensures Accepted(s, c, 4) && forall t :: DoesIncident(s, c, At(4), t) ==> Ends(t)
  {
    c := RECOVER;
    RecoverWritten(s);
    forall t | DoesIncident(s, c, At(4), t) ensures Ends(t) { RecoverDone(s, t); }
  }

  ghost predicate Ends(t: State) {
    2 in t.incidents && t.incidents[2].state.IncidentRecovering?
        && t.incidents[2].recoveryActions == {SEALING, RECOVERY}
  }

  lemma Second() returns (moves: seq<Move>, b: Sys)
    ensures Led(moves, b, 2) && Stage(b.state, IncidentOpen, 1, {})
  {
    var front, a := First();
    var c := CreateCommand(a.state);
    LaterAllowed(a, c, 2);
    moves, b := LedOnAccepted(front, a, 1, c, 2);
  }

  lemma Third() returns (moves: seq<Move>, b: Sys)
    ensures Led(moves, b, 3) && Stage(b.state, IncidentEvidenceSealed, 2, {SEALING})
  {
    var front, a := Second();
    var c := SealCommand(a.state);
    LaterAllowed(a, c, 3);
    moves, b := LedOnAccepted(front, a, 2, c, 3);
  }

  lemma Fourth() returns (moves: seq<Move>, b: Sys)
    ensures Led(moves, b, 4) && Ends(b.state)
  {
    var front, a := Third();
    var c := RecoverCommand(a.state);
    LaterAllowed(a, c, 4);
    moves, b := LedOnAccepted(front, a, 3, c, 4);
  }

  lemma TwoIntents(actions: set<Action>, a: Action, b: Action)
    requires a in actions && b in actions && Meant(a) && Meant(b) && a != b
    ensures !Agreeing(actions)
  {}

  /** An allowed run from the empty journal ends with a recovery that is stuck: two different
      recoveries are intended, so nothing can ever end it. */
  lemma StuckRecoveryExists() returns (moves: seq<Move>, id: Token)
    ensures AllAllowed(START, moves) && id in After(START, moves).state.incidents
            && Stuck(After(START, moves).state.incidents[id])
  {
    var b;
    moves, b := Fourth();
    id := 2;
    TwoIntents({SEALING, RECOVERY}, SEALING, RECOVERY);
  }
}

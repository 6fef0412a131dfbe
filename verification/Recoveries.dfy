/** Recoveries that can never complete: an incident sealed with one intended recovery and
    recovered by another is stuck for good, and the exact condition under which it is not. */
module Recoveries {
  import opened States
  import opened Records
  import opened Replay
  import opened Commands
  import opened Invariant
  import opened LeaseCommands
  import opened Agreement
  import opened Lifecycle
  import opened Reachability
  import opened Progress
  import opened Effects
  import opened TargetEffects
  import opened TransactionEffects
  import opened RetirementEffects
  import opened Outcomes

  predicate Meant(a: Action) { a.Intended? && a.strategy != 0 }

  /** The recorded actions name an intended recovery, and no two different ones. */
  ghost predicate Named(actions: set<Action>) { exists a :: a in actions && Meant(a) }

  ghost predicate Agreeing(actions: set<Action>) {
    forall a, b | a in actions && b in actions && Meant(a) && Meant(b) :: a == b
  }

  lemma CounterpartOf(actions: set<Action>, a: Action)
    requires a in actions && Meant(a)
    ensures Physical(a.resource, a.strategy) in PhysicalCounterparts(actions)
  {}

  lemma OnlyCounterpart(actions: set<Action>, a: Action)
    requires a in actions && Meant(a) && Agreeing(actions)
    ensures PhysicalCounterparts(actions) == {Physical(a.resource, a.strategy)}
  {
    CounterpartOf(actions, a);
  }

  /** One physical recovery is called for exactly when the intended ones agree. */
  lemma OneCounterpartIff(actions: set<Action>)
    ensures |PhysicalCounterparts(actions)| == 1 <==> Named(actions) && Agreeing(actions)
  {
    if |PhysicalCounterparts(actions)| == 1 {
      var p :| p in PhysicalCounterparts(actions);
      var a :| a in actions && a.Intended? && a.strategy != 0 && p == Physical(a.resource, a.strategy);
      assert Meant(a);
      forall b, c | b in actions && c in actions && Meant(b) && Meant(c) ensures b == c {
        CounterpartOf(actions, b);
        CounterpartOf(actions, c);
        OneOfOne(PhysicalCounterparts(actions), Physical(b.resource, b.strategy), Physical(c.resource, c.strategy));
      }
    } else if Named(actions) && Agreeing(actions) {
      var a :| a in actions && Meant(a);
      OnlyCounterpart(actions, a);
    }
  }

  // --------------------------------------------------------------- what becomes of incidents

  /** What one committed command can make of an incident: nothing; a new one; a move out of
      recovery, only if one physical recovery is called for; or a recovery with its intent. */
  ghost predicate FateOf(s: State, t: State, id: Token)
    requires id in t.incidents
  {
    var v := t.incidents[id];
    if id !in s.incidents then v.state.IncidentOpen?
    else
      var p := s.incidents[id];
      || v == p
      || (!v.state.IncidentRecovering?
          && (p.state.IncidentRecovering? ==> Named(p.recoveryActions) && Agreeing(p.recoveryActions)))
      || (p.state.IncidentEvidenceSealed? && v.state.IncidentRecovering? && Named(v.recoveryActions))
  }

  ghost predicate Fates(s: State, t: State) {
    && (forall id | id in s.incidents :: id in t.incidents)
    && (forall id | id in t.incidents :: FateOf(s, t, id))
  }

  lemma OwnersLeaveIncidents(s: State, c: OwnerCommand, env: Env, t: State)
    requires DoesOwner(s, c, env, t)
    ensures t.incidents == s.incidents
  {}

  lemma ExecsLeaveIncidents(s: State, c: ExecCommand, env: Env, t: State)
    requires DoesExec(s, c, env, t)
    ensures t.incidents == s.incidents
  {}

  lemma TargetsLeaveIncidents(s: State, c: TargetCommand, env: Env, t: State)
    requires DoesTarget(s, c, env, t)
    ensures t.incidents == s.incidents
  {}

  lemma RunsLeaveIncidents(s: State, c: RunCommand, env: Env, t: State)
    requires DoesRun(s, c, env, t)
    ensures t.incidents == s.incidents
  {}

  lemma TerminationsLeaveIncidents(s: State, c: TerminationCommand, env: Env, t: State)
    requires DoesTermination(s, c, env, t)
    ensures t.incidents == s.incidents
  {}

  lemma LeftFates(s: State, t: State)
    requires t.incidents == s.incidents
    ensures Fates(s, t)
  {}

  lemma MoveFate(s: State, t: State, id: Token, state: IncidentState, actions: set<Action>,
      acknowledgements: set<Token>, completion: bool, env: Env)
    requires MovesIncident(s, t, id, state, actions, acknowledgements, completion, env)
    ensures Fates(s, t)
  {
    var p := s.incidents[id];
    if p.state.IncidentRecovering? {
      assert completion;
      var resource, strategy :|
        && strategy != 0 && Intended(resource, strategy) in p.recoveryActions && Physical(resource, strategy) in actions
        && forall a | a in p.recoveryActions && a.Intended? && a.strategy != 0 :: a == Intended(resource, strategy);
      assert Meant(Intended(resource, strategy));
    }
  }

  lemma RecoverFate(s: State, t: State, id: Token, resource: Resource, strategy: Token, acknowledgement: Token,
      env: Env)
    requires Recovers(s, t, id, resource, strategy, acknowledgement, env)
    ensures Fates(s, t)
  {
    assert Meant(Intended(resource, strategy)) && Intended(resource, strategy) in t.incidents[id].recoveryActions;
  }

  lemma IncidentFates(s: State, c: IncidentCommand, env: Env, t: State)
    requires env.ids.incident !in s.incidents && DoesIncident(s, c, env, t)
    ensures Fates(s, t)
  {
    match c
    case CreateIncidentCommand(_, _) =>
    case TransitionIncidentCommand(id, _, state, actions, acknowledgements, completion) =>
      MoveFate(s, t, id, state, actions, acknowledgements, completion, env);
    case RecoverIncidentCommand(id, _, resource, strategy, acknowledgement) =>
      RecoverFate(s, t, id, resource, strategy, acknowledgement, env);
    case SealRunIncidentsCommand(_, _, _, _, _) =>
  }

  lemma DoesFates(s: State, c: Command, env: Env, t: State)
    requires env.ids.incident !in s.incidents && Does(s, c, env, t)
    ensures Fates(s, t)
  {
    if c.OnIncident? { IncidentFates(s, c.incident, env, t); } else { OtherFates(s, c, env, t); }
  }

  lemma OtherFates(s: State, c: Command, env: Env, t: State)
    requires !c.OnIncident? && Does(s, c, env, t)
    ensures Fates(s, t)
  {
    match c
    case Owner(c) => OwnersLeaveIncidents(s, c, env, t); LeftFates(s, t);
    case OnExec(c) => ExecsLeaveIncidents(s, c, env, t); LeftFates(s, t);
    case OnTarget(c) => TargetsLeaveIncidents(s, c, env, t); LeftFates(s, t);
    case OnRun(c) => RunsLeaveIncidents(s, c, env, t); LeftFates(s, t);
    case Terminating(c) => TerminationsLeaveIncidents(s, c, env, t); LeftFates(s, t);
  }

  lemma WrittenFates(s: State, c: Command, env: Env)
    requires Filed(s) && env.ids.incident !in s.incidents && Handle(s, c, env).Written?
    ensures Fates(s, Folded(s, Handle(s, c, env).records))
  {
    CommandsDo(s, c, env);
    DoesFates(s, c, env, Folded(s, Handle(s, c, env).records));
  }

  lemma StepFates(a: Sys, m: Move)
    requires Consistent(a) && Allowed(a, m)
    ensures Fates(a.state, Step(a, m).state)
  {
    if Handle(a.state, m.command, m.env).Written? {
      StepFolds(a, m);
      InvFiled(a.state);
      WrittenFates(a.state, m.command, m.env);
    } else {
      RefusedStays(a, m);
      LeftFates(a.state, Step(a, m).state);
    }
  }

  // ------------------------------------------------------------------------------- runs

  /** Every recovering incident names the recovery that was intended. */
  ghost predicate AllNamed(s: State) {
    forall id | id in s.incidents && s.incidents[id].state.IncidentRecovering? :: Named(s.incidents[id].recoveryActions)
  }

  lemma FatesNamed(s: State, t: State)
    requires Fates(s, t) && AllNamed(s)
    ensures AllNamed(t)
  {
    forall id | id in t.incidents && t.incidents[id].state.IncidentRecovering?
      ensures Named(t.incidents[id].recoveryActions)
    {
      assert FateOf(s, t, id);
    }
  }

  lemma {:induction false} AfterNamed(a: Sys, moves: seq<Move>)
    requires Consistent(a) && AllAllowed(a, moves) && AllNamed(a.state)
    ensures AllNamed(After(a, moves).state)
    decreases |moves|
  {
    if moves != [] {
      var front := moves[..|moves| - 1];
      AfterNamed(a, front);
      AfterConsistent(a, front);
      StepFates(After(a, front), moves[|moves| - 1]);
      FatesNamed(After(a, front).state, After(a, moves).state);
    }
  }

  /** In every reachable system a recovering incident names at least one intended recovery. */
  lemma EveryRecoveryNamed(a: Sys)
    requires Reachable(a)
    ensures AllNamed(a.state)
  {
    var moves: seq<Move> :| AllAllowed(START, moves) && a == After(START, moves);
    StartConsistent();
    AfterNamed(START, moves);
  }

  /** A recovery that no command can end. */
  ghost predicate Stuck(v: Incident) {
    v.state.IncidentRecovering? && !(Named(v.recoveryActions) && Agreeing(v.recoveryActions))
  }

  lemma FatesStuck(s: State, t: State, id: Token)
    requires Fates(s, t) && id in s.incidents && Stuck(s.incidents[id])
    ensures id in t.incidents && t.incidents[id] == s.incidents[id]
  {
    assert FateOf(s, t, id);
  }

  ghost predicate HasStuck(s: State, id: Token, v: Incident) {
    id in s.incidents && s.incidents[id] == v && Stuck(v)
  }

  lemma StepStuck(a: Sys, m: Move, id: Token, v: Incident)
    requires Consistent(a) && Allowed(a, m) && HasStuck(a.state, id, v)
    ensures HasStuck(Step(a, m).state, id, v)
  {
    StepFates(a, m);
    FatesStuck(a.state, Step(a, m).state, id);
  }

  lemma {:induction false} AfterStuck(a: Sys, moves: seq<Move>, id: Token, v: Incident)
    requires Consistent(a) && AllAllowed(a, moves) && HasStuck(a.state, id, v)
    ensures HasStuck(After(a, moves).state, id, v)
    decreases |moves|
  {
    if moves != [] {
      var front := moves[..|moves| - 1];
      AfterStuck(a, front, id, v);
      AfterConsistent(a, front);
      StepStuck(After(a, front), moves[|moves| - 1], id, v);
    }
  }

  /** A recovering incident whose intended recoveries differ never changes again, whatever
      commands run. */
  lemma StuckForever(a: Sys, moves: seq<Move>, id: Token)
    requires Consistent(a) && AllAllowed(a, moves) && id in a.state.incidents && Stuck(a.state.incidents[id])
    ensures id in After(a, moves).state.incidents && After(a, moves).state.incidents[id] == a.state.incidents[id]
  {
    AfterStuck(a, moves, id, a.state.incidents[id]);
  }

  // ------------------------------------------------------------------- exactly when it ends

  /** A recovering incident can be completed by some request if and only if its actions name
      an intended recovery and no two different ones. */
  lemma CompletableIff(s: State, id: Token, env: Env)
    requires id in s.incidents && ValidIncident(s.incidents[id]) && s.incidents[id].state.IncidentRecovering?
    ensures Completable(s, id, env) <==>
            Named(s.incidents[id].recoveryActions) && Agreeing(s.incidents[id].recoveryActions)
  {
    var v := s.incidents[id];
    OneCounterpartIff(v.recoveryActions);
    if |PhysicalCounterparts(v.recoveryActions)| == 1 {
      assert Completing(s, id, v.recoveryActions + PhysicalCounterparts(v.recoveryActions), v.acknowledgements,
          env).Written?;
    }
  }

  function Completing(s: State, id: Token, actions: set<Action>, acknowledgements: set<Token>, env: Env): Outcome
    requires id in s.incidents
  {
    TransitionIncident(s, id, s.incidents[id].revision, IncidentResolved, actions, acknowledgements, true, env)
  }

  ghost predicate Completable(s: State, id: Token, env: Env)
    requires id in s.incidents
  {
    exists actions, acknowledgements :: Completing(s, id, actions, acknowledgements, env).Written?
  }

  lemma CompletionCommand(s: State, id: Token, env: Env) returns (c: IncidentCommand)
    requires id in s.incidents && ValidIncident(s.incidents[id]) && s.incidents[id].state.IncidentRecovering?
    requires Named(s.incidents[id].recoveryActions) && Agreeing(s.incidents[id].recoveryActions)
    ensures HandleIncident(s, c, env).Written? && Resolves(c, id)
  {
    CompletableIff(s, id, env);
    var actions, acknowledgements :| Completing(s, id, actions, acknowledgements, env).Written?;
    c := TransitionIncidentCommand(id, s.incidents[id].revision, IncidentResolved, actions, acknowledgements, true);
  }

  predicate Resolves(c: IncidentCommand, id: Token) {
    c.TransitionIncidentCommand? && c.incidentId == id && c.state.IncidentResolved?
  }

  lemma ResolvingEffect(s: State, c: IncidentCommand, env: Env, t: State, id: Token)
    requires Resolves(c, id) && DoesIncident(s, c, env, t)
    ensures id in t.incidents && t.incidents[id].state.IncidentResolved?
  {}

  lemma ResolvingWritten(s: State, c: IncidentCommand, env: Env, id: Token)
    requires Filed(s) && HandleIncident(s, c, env).Written? && Resolves(c, id)
    ensures var t := Folded(s, HandleIncident(s, c, env).records);
            id in t.incidents && t.incidents[id].state.IncidentResolved?
  {
    IncidentsDo(s, c, env);
    ResolvingEffect(s, c, env, Folded(s, HandleIncident(s, c, env).records), id);
  }

  lemma ResolvingStep(a: Sys, m: Move, id: Token)
    requires Consistent(a) && Allowed(a, m) && Handle(a.state, m.command, m.env).Written?
    requires m.command.OnIncident? && Resolves(m.command.incident, id)
    ensures id in Step(a, m).state.incidents && Step(a, m).state.incidents[id].state.IncidentResolved?
  {
    StepFolds(a, m);
    InvFiled(a.state);
    IncidentHandled(a.state, m.command.incident, m.env);
    ResolvingWritten(a.state, m.command.incident, m.env, id);
  }

  lemma IncidentAllowed(a: Sys, c: IncidentCommand, env: Env)
    requires env.stamp != 0 && a.clock <= env.guard <= env.stamp && FreshOwners(a.state, env.ids)
            && FreshWork(a.state, env.ids)
    ensures Allowed(a, Move(OnIncident(c), env))
  {}

  lemma IncidentHandled(s: State, c: IncidentCommand, env: Env)
    ensures Handle(s, OnIncident(c), env) == HandleIncident(s, c, env)
  {}

  lemma ConsistentIncident(a: Sys, id: Token)
    requires Consistent(a) && id in a.state.incidents
    ensures ValidIncident(a.state.incidents[id])
  {
    assert IncidentInv(a.state, id);
  }

  lemma CompletionMove(a: Sys, id: Token) returns (c: IncidentCommand, env: Env)
    requires id in a.state.incidents && ValidIncident(a.state.incidents[id])
            && a.state.incidents[id].state.IncidentRecovering?
    requires Named(a.state.incidents[id].recoveryActions) && Agreeing(a.state.incidents[id].recoveryActions)
    ensures Allowed(a, Move(OnIncident(c), env)) && Handle(a.state, OnIncident(c), env).Written? && Resolves(c, id)
  {
    env := NextEnv(a);
    c := CompletionCommand(a.state, id, env);
    IncidentAllowed(a, c, env);
    IncidentHandled(a.state, c, env);
  }

  ghost predicate ResolvedBy(a: Sys, moves: seq<Move>, id: Token) {
    && AllAllowed(a, moves) && id in After(a, moves).state.incidents
    && After(a, moves).state.incidents[id].state.IncidentResolved?
  }

  lemma ResolvingRun(a: Sys, m: Move, id: Token)
    requires Consistent(a) && Allowed(a, m) && Handle(a.state, m.command, m.env).Written?
    requires m.command.OnIncident? && Resolves(m.command.incident, id)
    ensures ResolvedBy(a, [m], id)
  {
    ResolvingStep(a, m, id);
    AfterOne(a, m);
  }

  /** A move that resolves an incident, ready to be made. */
  ghost predicate Resolving(a: Sys, m: Move, id: Token) {
    && Allowed(a, m) && Handle(a.state, m.command, m.env).Written?
    && m.command.OnIncident? && Resolves(m.command.incident, id)
  }

  lemma ResolvingExists(a: Sys, id: Token) returns (m: Move)
    requires id in a.state.incidents && ValidIncident(a.state.incidents[id])
    requires a.state.incidents[id].state.IncidentRecovering?
    requires Named(a.state.incidents[id].recoveryActions) && Agreeing(a.state.incidents[id].recoveryActions)
    ensures Resolving(a, m, id)
  {
    var c, env := CompletionMove(a, id);
    m := Move(OnIncident(c), env);
  }

  lemma ResolvedByOne(a: Sys, id: Token)
    requires Consistent(a) && id in a.state.incidents && a.state.incidents[id].state.IncidentRecovering?
    requires Named(a.state.incidents[id].recoveryActions) && Agreeing(a.state.incidents[id].recoveryActions)
    ensures exists moves :: ResolvedBy(a, moves, id)
  {
    ConsistentIncident(a, id);
    var m := ResolvingExists(a, id);
    ResolvingRun(a, m, id);
  }

  /** In every reachable system, a recovery can be brought to an end by some run if and only
      if no two of its intended recoveries differ. */
  lemma ResolvableIff(a: Sys, id: Token)
    requires Reachable(a) && id in a.state.incidents && a.state.incidents[id].state.IncidentRecovering?
    ensures (exists moves :: ResolvedBy(a, moves, id)) <==> Agreeing(a.state.incidents[id].recoveryActions)
  {
    ReachableConsistent(a);
    EveryRecoveryNamed(a);
    if Agreeing(a.state.incidents[id].recoveryActions) {
      ResolvedByOne(a, id);
    } else {
      forall moves | ResolvedBy(a, moves, id) ensures false { StuckForever(a, moves, id); }
    }
  }

  lemma AgreeingWith(actions: set<Action>, a: Action)
    requires Meant(a)
    ensures Named(actions + {a})
    ensures Agreeing(actions + {a}) <==> forall b | b in actions && Meant(b) :: b == a
  {
    assert a in actions + {a};
    if Agreeing(actions + {a}) {
      forall b | b in actions && Meant(b) ensures b == a { assert b in actions + {a}; }
    }
  }

  /** What a recovery leaves of the incident. */
  ghost predicate BecomesRecovering(s: State, t: State, id: Token, c: IncidentCommand) {
    && c.RecoverIncidentCommand? && c.incidentId == id && c.strategy != 0 && id in s.incidents && id in t.incidents
    && t.incidents[id].state.IncidentRecovering?
    && t.incidents[id].recoveryActions == s.incidents[id].recoveryActions + {Intended(c.resource, c.strategy)}
  }

  lemma RecoveringEffect(s: State, c: IncidentCommand, env: Env, t: State, id: Token)
    requires c.RecoverIncidentCommand? && c.incidentId == id && DoesIncident(s, c, env, t)
    ensures BecomesRecovering(s, t, id, c)
  {}

  lemma StepIncidentValid(a: Sys, m: Move, id: Token)
    requires Consistent(a) && Allowed(a, m) && id in Step(a, m).state.incidents
    ensures ValidIncident(Step(a, m).state.incidents[id])
  {
    StepConsistent(a, m);
    ConsistentIncident(Step(a, m), id);
  }

  lemma RecoveringWritten(s: State, c: IncidentCommand, env: Env, id: Token)
    requires Filed(s) && HandleIncident(s, c, env).Written? && c.RecoverIncidentCommand? && c.incidentId == id
    ensures BecomesRecovering(s, Folded(s, HandleIncident(s, c, env).records), id, c)
  {
    IncidentsDo(s, c, env);
    RecoveringEffect(s, c, env, Folded(s, HandleIncident(s, c, env).records), id);
  }

  lemma RecoverStep(a: Sys, m: Move, id: Token)
    requires Consistent(a) && Allowed(a, m) && Handle(a.state, m.command, m.env).Written?
    requires m.command.OnIncident? && m.command.incident.RecoverIncidentCommand? && m.command.incident.incidentId == id
    ensures BecomesRecovering(a.state, Step(a, m).state, id, m.command.incident)
  {
    StepFolds(a, m);
    InvFiled(a.state);
    IncidentHandled(a.state, m.command.incident, m.env);
    RecoveringWritten(a.state, m.command.incident, m.env, id);
  }

  /** A committed recovery can be completed by some request if and only if the actions sealed
      with the incident name no other intended recovery than the one it records. */
  lemma RecoveryCompletableIff(a: Sys, m: Move, id: Token, env: Env)
    requires Consistent(a) && Allowed(a, m) && Handle(a.state, m.command, m.env).Written?
    requires m.command.OnIncident? && m.command.incident.RecoverIncidentCommand? && m.command.incident.incidentId == id
    ensures id in a.state.incidents && id in Step(a, m).state.incidents
    ensures Completable(Step(a, m).state, id, env) <==>
            forall b | b in a.state.incidents[id].recoveryActions && Meant(b) ::
              b == Intended(m.command.incident.resource, m.command.incident.strategy)
  {
    RecoverStep(a, m, id);
    StepIncidentValid(a, m, id);
    CompletableIff(Step(a, m).state, id, env);
    AgreeingWith(a.state.incidents[id].recoveryActions,
        Intended(m.command.incident.resource, m.command.incident.strategy));
  }
}

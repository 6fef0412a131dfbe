/** Optimistic concurrency: a command that expects a revision is accepted only at that
    revision of what it names, moves it on, and so is accepted at most once. */
module Revisions {
  import opened States
  import opened Records
  import opened Replay
  import opened Commands
  import opened Invariant
  import opened Chains
  import opened Agreement
  import opened Lifecycle
  import opened Effects
  import opened TargetEffects
  import opened TransactionEffects
  import opened RetirementEffects
  import opened Outcomes
  import opened Histories
  import opened OwnerVerdicts
  import opened TargetVerdicts
  import opened IncidentVerdicts
  import opened TerminationVerdicts
  import opened Verdicts

  /** What a command is about, by its identity. */
  datatype Element =
    | TheLease(id: Token)
    | TheAgent(id: Token, generation: nat)
    | TheExec(id: Token)
    | TheTarget(id: Token)
    | TheRealization(id: Token, generation: nat)
    | TheRun(id: Token, runId: Token)
    | TheOperation(id: Token, operationId: Token)
    | TheIncident(id: Token)

  datatype Expectation = Nothing | Expecting(element: Element, revision: nat)

  /** The element is recorded at a revision. */
  ghost predicate At(s: State, x: Element, n: nat) {
    match x
    case TheLease(id) => id in s.leases && s.leases[id].revision == n
    case TheAgent(id, generation) => HasAgent(s, id, generation) && AgentAt(s, id, generation).revision == n
    case TheExec(id) => id in s.execs && s.execs[id].revision == n
    case TheTarget(id) => id in s.targets && s.targets[id].revision == n
    case TheRealization(id, generation) => HasTarget(s, id, generation) && TargetAt(s, id, generation).revision == n
    case TheRun(id, runId) => exists r :: RunIn(s, id, runId, r) && r.revision == n
    case TheOperation(id, operationId) => exists o :: OperationIn(s, id, operationId, o) && o.revision == n
    case TheIncident(id) => id in s.incidents && s.incidents[id].revision == n
  }

  function OwnerExpects(c: OwnerCommand): Expectation {
    match c
    case AcquireCommand(_, _, _, _) => Nothing
    case RenewCommand(leaseId, expected, _) => Expecting(TheLease(leaseId), expected)
    case TransitionAgentCommand(id, generation, expected, _) => Expecting(TheAgent(id, generation), expected)
    case BindAgentPlanCommand(id, generation, expected, _) => Expecting(TheAgent(id, generation), expected)
  }

  function ExecExpects(c: ExecCommand): Expectation {
    match c
    case CreateExecCommand(_, _) => Nothing
    case TransitionExecCommand(id, expected, _) => Expecting(TheExec(id), expected)
    case FinalizeExecCommand(id, expected, _, _, _) => Expecting(TheExec(id), expected)
  }

  function TargetExpects(c: TargetCommand): Expectation {
    match c
    case CreateTargetCommand(_, _, _, _, _, _) => Nothing
    case TransitionTargetGenCommand(id, generation, expected, _) =>
      Expecting(TheRealization(id, generation), expected)
    case BindTargetPlanCommand(id, generation, expected, _) => Expecting(TheRealization(id, generation), expected)
    case ResetTargetCommand(id, expected, _) => Expecting(TheTarget(id), expected)
    case QuarantineTargetCommand(id, expected, _, _) => Expecting(TheTarget(id), expected)
  }

  function RunExpects(c: RunCommand): Expectation {
    match c
    case StartRunCommand(_, _) => Nothing
    case BindRunPlanCommand(id, runId, expected, _) => Expecting(TheRun(id, runId), expected)
    case TransitionRunCommand(id, runId, expected, _) => Expecting(TheRun(id, runId), expected)
    case FinalizeRunCommand(id, runId, expected, _, _, _) => Expecting(TheRun(id, runId), expected)
    case CreateOperationCommand(_, _, _) => Nothing
    case TransitionOperationCommand(id, operationId, expected, _) =>
      Expecting(TheOperation(id, operationId), expected)
  }

  function IncidentExpects(c: IncidentCommand): Expectation {
    match c
    case CreateIncidentCommand(_, _) => Nothing
    case TransitionIncidentCommand(id, expected, _, _, _, _) => Expecting(TheIncident(id), expected)
    case RecoverIncidentCommand(id, expected, _, _, _) => Expecting(TheIncident(id), expected)
    case SealRunIncidentsCommand(_, _, _, _, _) => Nothing
  }

  function TerminationExpects(c: TerminationCommand): Expectation {
    match c
    case BeginReleaseCommand(leaseId, expected, _, _, _) => Expecting(TheLease(leaseId), expected)
    case BeginExpiryCommand(leaseId, expected, _, _) => Expecting(TheLease(leaseId), expected)
    case CompleteReleaseCommand(leaseId, expected, _, _, _) => Expecting(TheLease(leaseId), expected)
    case CompleteTerminationCommand(leaseId, expected, _, _) => Expecting(TheLease(leaseId), expected)
  }

  /** What a command expects: the element it names, at a revision. */
  function Expects(c: Command): Expectation {
    match c
    case Owner(c) => OwnerExpects(c)
    case OnExec(c) => ExecExpects(c)
    case OnTarget(c) => TargetExpects(c)
    case OnRun(c) => RunExpects(c)
    case OnIncident(c) => IncidentExpects(c)
    case Terminating(c) => TerminationExpects(c)
  }

  ghost predicate Met(s: State, x: Expectation) { x.Expecting? ==> At(s, x.element, x.revision) }

  // ------------------------------------------------------------------------ only at once

  lemma OwnersMet(s: State, c: OwnerCommand, env: Env)
    requires forall e :: !OwnerFault(s, c, env, e)
    ensures Met(s, OwnerExpects(c))
  {
    assert !OwnerFault(s, c, env, NotFound) && !OwnerFault(s, c, env, RevisionConflict);
    assert !OwnerFault(s, c, env, FailedPrecondition);
  }

  lemma ExecsMet(s: State, c: ExecCommand, env: Env)
    requires forall e :: !ExecFault(s, c, env, e)
    ensures Met(s, ExecExpects(c))
  {
    assert !ExecFault(s, c, env, NotFound) && !ExecFault(s, c, env, RevisionConflict);
  }

  lemma TargetsMet(s: State, c: TargetCommand, env: Env)
    requires forall e :: !TargetFault(s, c, env, e)
    ensures Met(s, TargetExpects(c))
  {
    assert !TargetFault(s, c, env, NotFound) && !TargetFault(s, c, env, RevisionConflict);
    assert !TargetFault(s, c, env, FailedPrecondition);
  }

  lemma RunsMet(s: State, c: RunCommand, env: Env)
    requires forall e :: !RunFault(s, c, env, e)
    ensures Met(s, RunExpects(c))
  {
    assert !RunFault(s, c, env, NotFound) && !RunFault(s, c, env, RevisionConflict);
  }

  lemma IncidentsMet(s: State, c: IncidentCommand, env: Env)
    requires forall e :: !IncidentFault(s, c, env, e)
    ensures Met(s, IncidentExpects(c))
  {
    assert !IncidentFault(s, c, env, NotFound) && !IncidentFault(s, c, env, RevisionConflict);
  }

  lemma TerminationsMet(s: State, c: TerminationCommand, env: Env)
    requires forall e :: !TerminationFault(s, c, env, e)
    ensures Met(s, TerminationExpects(c))
  {
    assert !TerminationFault(s, c, env, NotFound) && !TerminationFault(s, c, env, RevisionConflict);
  }

  lemma FaultlessMet(s: State, c: Command, env: Env)
    requires forall e :: !Fault(s, c, env, e)
    ensures Met(s, Expects(c))
  {
    match c
    case Owner(o) =>
      forall e ensures !OwnerFault(s, o, env, e) { assert !Fault(s, c, env, e); }
      OwnersMet(s, o, env);
    case OnExec(o) =>
      forall e ensures !ExecFault(s, o, env, e) { assert !Fault(s, c, env, e); }
      ExecsMet(s, o, env);
    case OnTarget(o) =>
      forall e ensures !TargetFault(s, o, env, e) { assert !Fault(s, c, env, e); }
      TargetsMet(s, o, env);
    case OnRun(o) =>
      forall e ensures !RunFault(s, o, env, e) { assert !Fault(s, c, env, e); }
      RunsMet(s, o, env);
    case OnIncident(o) =>
      forall e ensures !IncidentFault(s, o, env, e) { assert !Fault(s, c, env, e); }
      IncidentsMet(s, o, env);
    case Terminating(o) =>
      forall e ensures !TerminationFault(s, o, env, e) { assert !Fault(s, c, env, e); }
      TerminationsMet(s, o, env);
  }

  /** A command is accepted only at the revision that it expects. */
  lemma ExpectedIsMet(s: State, c: Command, env: Env)
    requires AgentsFiled(s) && TargetsFiled(s) && Handle(s, c, env).Written?
    ensures Met(s, Expects(c))
  {
    CommandsJudged(s, c, env);
    FaultlessMet(s, c, env);
  }

  // --------------------------------------------------------------------------- moving on

  /** The element is recorded at a later revision. */
  ghost predicate Beyond(s: State, x: Element, n: nat) { exists k :: k > n && At(s, x, k) }

  ghost predicate Passed(s: State, x: Expectation) { x.Expecting? ==> Beyond(s, x.element, x.revision) }

  lemma PassedAt(s: State, x: Element, n: nat, k: nat)
    requires At(s, x, k) && k > n
    ensures Beyond(s, x, n)
  {}

  lemma OwnersMoveOn(s: State, c: OwnerCommand, env: Env, t: State)
    requires DoesOwner(s, c, env, t) && Met(s, OwnerExpects(c))
    ensures Passed(t, OwnerExpects(c))
  {
    match c
    case AcquireCommand(_, _, _, _) =>
    case RenewCommand(leaseId, expected, _) => PassedAt(t, TheLease(leaseId), expected, expected + 1);
    case TransitionAgentCommand(id, generation, expected, _) =>
      PassedAt(t, TheAgent(id, generation), expected, expected + 1);
    case BindAgentPlanCommand(id, generation, expected, _) =>
      PassedAt(t, TheAgent(id, generation), expected, expected + 1);
  }

  lemma ExecsMoveOn(s: State, c: ExecCommand, env: Env, t: State)
    requires DoesExec(s, c, env, t) && Met(s, ExecExpects(c))
    ensures Passed(t, ExecExpects(c))
  {
    match c
    case CreateExecCommand(_, _) =>
    case TransitionExecCommand(id, expected, _) => PassedAt(t, TheExec(id), expected, expected + 1);
    case FinalizeExecCommand(id, expected, _, _, _) => PassedAt(t, TheExec(id), expected, expected + 1);
  }

  /** Only containing a target that is contained already writes nothing. */
  lemma TargetsMoveOn(s: State, c: TargetCommand, env: Env, t: State)
    requires DoesTarget(s, c, env, t) && Met(s, TargetExpects(c)) && t != s
    ensures Passed(t, TargetExpects(c))
  {
    match c
    case CreateTargetCommand(_, _, _, _, _, _) =>
    case TransitionTargetGenCommand(id, generation, expected, _) =>
      PassedAt(t, TheRealization(id, generation), expected, expected + 1);
    case BindTargetPlanCommand(id, generation, expected, _) =>
      PassedAt(t, TheRealization(id, generation), expected, expected + 1);
    case ResetTargetCommand(id, expected, _) => PassedAt(t, TheTarget(id), expected, expected + 1);
    case QuarantineTargetCommand(id, expected, _, _) => PassedAt(t, TheTarget(id), expected, expected + 1);
  }

  lemma RunMovedOn(s: State, t: State, id: Token, runId: Token, n: nat, steps: nat)
    requires At(s, TheRun(id, runId), n) && id in t.targets && steps > 0 && |t.targets[id].runs| == |s.targets[id].runs|
    requires forall k | 0 <= k < |s.targets[id].runs| && s.targets[id].runs[k].id == runId ::
               var q, r := s.targets[id].runs[k], t.targets[id].runs[k];
               r.id == q.id && r.revision == q.revision + steps
    ensures Beyond(t, TheRun(id, runId), n)
  {
    var q :| RunIn(s, id, runId, q) && q.revision == n;
    var k :| 0 <= k < |s.targets[id].runs| && s.targets[id].runs[k] == q;
    assert RunIn(t, id, runId, t.targets[id].runs[k]);
    PassedAt(t, TheRun(id, runId), n, n + steps);
  }

  lemma OperationMovedOn(s: State, t: State, id: Token, operationId: Token, n: nat)
    requires At(s, TheOperation(id, operationId), n)
    requires id in t.targets && |t.targets[id].operations| == |s.targets[id].operations|
    requires forall k | 0 <= k < |s.targets[id].operations| && s.targets[id].operations[k].id == operationId ::
               var q, o := s.targets[id].operations[k], t.targets[id].operations[k];
               o.id == q.id && o.revision == q.revision + 1
    ensures Beyond(t, TheOperation(id, operationId), n)
  {
    var q :| OperationIn(s, id, operationId, q) && q.revision == n;
    var k :| 0 <= k < |s.targets[id].operations| && s.targets[id].operations[k] == q;
    assert OperationIn(t, id, operationId, t.targets[id].operations[k]);
    PassedAt(t, TheOperation(id, operationId), n, n + 1);
  }

  lemma EndedMovesOn(s: State, t: State, id: Token, runId: Token, failed: bool, bundle: Bundle, ids: seq<Token>,
      env: Env, n: nat)
    requires EndsRun(s, t, id, runId, failed, bundle, ids, env) && At(s, TheRun(id, runId), n)
    ensures Beyond(t, TheRun(id, runId), n)
  {
    var steps := if RunEnded(s.targets[id], t.targets[id], runId, failed, bundle, ids, 1, env.stamp) then 1 else 2;
    RunMovedOn(s, t, id, runId, n, steps);
  }

  lemma RunsMoveOn(s: State, c: RunCommand, env: Env, t: State)
    requires DoesRun(s, c, env, t) && Met(s, RunExpects(c))
    ensures Passed(t, RunExpects(c))
  {
    match c
    case StartRunCommand(_, _) =>
    case BindRunPlanCommand(id, runId, expected, _) => RunMovedOn(s, t, id, runId, expected, 1);
    case TransitionRunCommand(id, runId, expected, _) => RunMovedOn(s, t, id, runId, expected, 1);
    case FinalizeRunCommand(id, runId, expected, failed, bundle, ids) =>
      EndedMovesOn(s, t, id, runId, failed, bundle, ids, env, expected);
    case CreateOperationCommand(_, _, _) =>
    case TransitionOperationCommand(id, operationId, expected, _) =>
      OperationMovedOn(s, t, id, operationId, expected);
  }

  lemma IncidentsMoveOn(s: State, c: IncidentCommand, env: Env, t: State)
    requires DoesIncident(s, c, env, t) && Met(s, IncidentExpects(c))
    ensures Passed(t, IncidentExpects(c))
  {
    match c
    case CreateIncidentCommand(_, _) =>
    case TransitionIncidentCommand(id, expected, _, _, _, _) => PassedAt(t, TheIncident(id), expected, expected + 1);
    case RecoverIncidentCommand(id, expected, _, _, _) => PassedAt(t, TheIncident(id), expected, expected + 1);
    case SealRunIncidentsCommand(_, _, _, _, _) =>
  }

  lemma TerminationsMoveOn(s: State, c: TerminationCommand, env: Env, t: State)
    requires DoesTermination(s, c, env, t) && Met(s, TerminationExpects(c))
    ensures Passed(t, TerminationExpects(c))
  {
    match c
    case BeginReleaseCommand(leaseId, expected, _, _, _) => PassedAt(t, TheLease(leaseId), expected, expected + 1);
    case BeginExpiryCommand(leaseId, expected, _, _) => PassedAt(t, TheLease(leaseId), expected, expected + 1);
    case CompleteReleaseCommand(leaseId, expected, _, _, _) => PassedAt(t, TheLease(leaseId), expected, expected + 1);
    case CompleteTerminationCommand(leaseId, expected, _, _) => PassedAt(t, TheLease(leaseId), expected, expected + 1);
  }

  lemma OwnersPass(s: State, c: OwnerCommand, env: Env)
    requires Filed(s) && HandleOwner(s, c, env).Written?
    ensures Passed(Folded(s, HandleOwner(s, c, env).records), OwnerExpects(c))
  {
    OwnersJudged(s, c, env);
    OwnersMet(s, c, env);
    OwnersDo(s, c, env);
    OwnersMoveOn(s, c, env, Folded(s, HandleOwner(s, c, env).records));
  }

  lemma ExecsPass(s: State, c: ExecCommand, env: Env)
    requires Filed(s) && HandleExec(s, c, env).Written?
    ensures Passed(Folded(s, HandleExec(s, c, env).records), ExecExpects(c))
  {
    ExecsJudged(s, c, env);
    ExecsMet(s, c, env);
    ExecsDo(s, c, env);
    ExecsMoveOn(s, c, env, Folded(s, HandleExec(s, c, env).records));
  }

  lemma TargetsPass(s: State, c: TargetCommand, env: Env)
    requires Filed(s) && HandleTarget(s, c, env).Written?
    requires Folded(s, HandleTarget(s, c, env).records) != s
    ensures Passed(Folded(s, HandleTarget(s, c, env).records), TargetExpects(c))
  {
    TargetsJudged(s, c, env);
    TargetsMet(s, c, env);
    TargetsDo(s, c, env);
    TargetsMoveOn(s, c, env, Folded(s, HandleTarget(s, c, env).records));
  }

  lemma RunsPass(s: State, c: RunCommand, env: Env)
    requires Filed(s) && HandleRun(s, c, env).Written?
    ensures Passed(Folded(s, HandleRun(s, c, env).records), RunExpects(c))
  {
    RunsJudged(s, c, env);
    RunsMet(s, c, env);
    RunsDo(s, c, env);
    RunsMoveOn(s, c, env, Folded(s, HandleRun(s, c, env).records));
  }

  lemma IncidentsPass(s: State, c: IncidentCommand, env: Env)
    requires Filed(s) && HandleIncident(s, c, env).Written?
    ensures Passed(Folded(s, HandleIncident(s, c, env).records), IncidentExpects(c))
  {
    IncidentsJudged(s, c, env);
    IncidentsMet(s, c, env);
    IncidentsDo(s, c, env);
    IncidentsMoveOn(s, c, env, Folded(s, HandleIncident(s, c, env).records));
  }

  lemma TerminationsPass(s: State, c: TerminationCommand, env: Env)
    requires Filed(s) && HandleTermination(s, c, env).Written?
    ensures Passed(Folded(s, HandleTermination(s, c, env).records), TerminationExpects(c))
  {
    TerminationsJudged(s, c, env);
    TerminationsMet(s, c, env);
    TerminationsDo(s, c, env);
    TerminationsMoveOn(s, c, env, Folded(s, HandleTermination(s, c, env).records));
  }

  lemma WrittenPasses(s: State, c: Command, env: Env)
    requires Filed(s) && Handle(s, c, env).Written? && Folded(s, Handle(s, c, env).records) != s
    ensures Passed(Folded(s, Handle(s, c, env).records), Expects(c))
  {
    match c
    case Owner(o) => OwnersPass(s, o, env);
    case OnExec(o) => ExecsPass(s, o, env);
    case OnTarget(o) => TargetsPass(s, o, env);
    case OnRun(o) => RunsPass(s, o, env);
    case OnIncident(o) => IncidentsPass(s, o, env);
    case Terminating(o) => TerminationsPass(s, o, env);
  }

  // ---------------------------------------------------------------------------- over runs

  lemma RunBeyond(s: State, t: State, id: Token, runId: Token, n: nat)
    requires TargetsContinue(s.targets, t.targets) && Beyond(s, TheRun(id, runId), n)
    ensures Beyond(t, TheRun(id, runId), n)
  {
    var k :| k > n && At(s, TheRun(id, runId), k);
    var q :| RunIn(s, id, runId, q) && q.revision == k;
    assert RunGoesOn(q, t.targets[id].runs);
    var r :| r in t.targets[id].runs && RunFollows(q, r);
    assert RunIn(t, id, runId, r);
    PassedAt(t, TheRun(id, runId), n, r.revision);
  }

  lemma OperationBeyond(s: State, t: State, id: Token, operationId: Token, n: nat)
    requires TargetsContinue(s.targets, t.targets) && Beyond(s, TheOperation(id, operationId), n)
    ensures Beyond(t, TheOperation(id, operationId), n)
  {
    var k :| k > n && At(s, TheOperation(id, operationId), k);
    var q :| OperationIn(s, id, operationId, q) && q.revision == k;
    assert OperationGoesOn(q, t.targets[id].operations);
    var o :| o in t.targets[id].operations && OperationFollows(q, o);
    assert OperationIn(t, id, operationId, o);
    PassedAt(t, TheOperation(id, operationId), n, o.revision);
  }

  /** Revisions never go back, whatever is recorded. */
  lemma StaysBeyond(s: State, t: State, x: Element, n: nat)
    requires Continues(s, t) && Beyond(s, x, n)
    ensures Beyond(t, x, n)
  {
    match x
    case TheLease(id) => PassedAt(t, x, n, t.leases[id].revision);
    case TheAgent(id, generation) => PassedAt(t, x, n, AgentAt(t, id, generation).revision);
    case TheExec(id) => PassedAt(t, x, n, t.execs[id].revision);
    case TheTarget(id) => PassedAt(t, x, n, t.targets[id].revision);
    case TheRealization(id, generation) => PassedAt(t, x, n, TargetAt(t, id, generation).revision);
    case TheRun(id, runId) => RunBeyond(s, t, id, runId, n);
    case TheOperation(id, operationId) => OperationBeyond(s, t, id, operationId, n);
    case TheIncident(id) => PassedAt(t, x, n, t.incidents[id].revision);
  }

  lemma RunAtOnce(s: State, id: Token, runId: Token, j: nat, k: nat)
    requires TargetsFiled(s) && At(s, TheRun(id, runId), j) && At(s, TheRun(id, runId), k)
    ensures j == k
  {
    RunFound(s, id, runId);
  }

  lemma OperationAtOnce(s: State, id: Token, operationId: Token, j: nat, k: nat)
    requires TargetsFiled(s) && At(s, TheOperation(id, operationId), j) && At(s, TheOperation(id, operationId), k)
    ensures j == k
  {
    OperationFound(s, id, operationId);
  }

  /** An element is at one revision. */
  lemma AtOnce(s: State, x: Element, j: nat, k: nat)
    requires TargetsFiled(s) && At(s, x, j) && At(s, x, k)
    ensures j == k
  {
    match x
    case TheRun(id, runId) => RunAtOnce(s, id, runId, j, k);
    case TheOperation(id, operationId) => OperationAtOnce(s, id, operationId, j, k);
    case _ =>
  }

  lemma BeyondUnmet(s: State, x: Expectation)
    requires TargetsFiled(s) && x.Expecting? && Beyond(s, x.element, x.revision)
    ensures !Met(s, x)
  {
    var k :| k > x.revision && At(s, x.element, k);
    if Met(s, x) { AtOnce(s, x.element, k, x.revision); }
  }

  lemma StaleRefused(s: State, c: Command, env: Env)
    requires AgentsFiled(s) && TargetsFiled(s) && Expects(c).Expecting?
    requires Beyond(s, Expects(c).element, Expects(c).revision)
    ensures !Handle(s, c, env).Written?
  {
    BeyondUnmet(s, Expects(c));
    if Handle(s, c, env).Written? { ExpectedIsMet(s, c, env); }
  }

  lemma CommitContinues(a: Sys, o: Outcome, at: Time)
    requires o.Written? && Agrees(a.state, o)
    ensures Continues(a.state, Commit(a, o, at).state)
  {
    JournalContinues(a.state, o.records);
  }

  lemma StepContinues(a: Sys, m: Move)
    requires Consistent(a) && Allowed(a, m)
    ensures Continues(a.state, Step(a, m).state)
  {
    if Handle(a.state, m.command, m.env).Written? {
      AllowedAgrees(a, m);
      CommitContinues(a, Handle(a.state, m.command, m.env), m.env.stamp);
    } else {
      RefusedStays(a, m);
      ContinuesReflexive(a.state);
    }
  }

  lemma {:induction false} AfterContinues(a: Sys, moves: seq<Move>)
    requires Consistent(a) && AllAllowed(a, moves)
    ensures Continues(a.state, After(a, moves).state)
    decreases |moves|
  {
    if moves == [] {
      ContinuesReflexive(a.state);
    } else {
      var front := moves[..|moves| - 1];
      AfterContinues(a, front);
      AfterConsistent(a, front);
      StepContinues(After(a, front), moves[|moves| - 1]);
      ContinuesTransitive(a.state, After(a, front).state, After(a, moves).state);
    }
  }

  lemma StepPasses(a: Sys, m: Move)
    requires Consistent(a) && Allowed(a, m) && Step(a, m).state != a.state
    ensures Passed(Step(a, m).state, Expects(m.command))
  {
    if Handle(a.state, m.command, m.env).Written? {
      StepFolds(a, m);
      InvFiled(a.state);
      WrittenPasses(a.state, m.command, m.env);
    } else {
      RefusedStays(a, m);
    }
  }

  lemma ConsistentFiled(a: Sys)
    requires Consistent(a)
    ensures AgentsFiled(a.state) && TargetsFiled(a.state)
  {
    InvFiled(a.state);
  }

  /** Of two commands that expect the same revision of the same element, once the first has
      changed something the second is refused, whatever has run in between. */
  lemma AcceptedOnce(a: Sys, m: Move, moves: seq<Move>, c: Command, env: Env)
    requires Consistent(a) && Allowed(a, m) && Step(a, m).state != a.state && AllAllowed(Step(a, m), moves)
    requires Expects(c).Expecting? && Expects(c) == Expects(m.command)
    ensures !Handle(After(Step(a, m), moves).state, c, env).Written?
  {
    StepConsistent(a, m);
    StepPasses(a, m);
    var b := Step(a, m);
    AfterContinues(b, moves);
    AfterConsistent(b, moves);
    ConsistentFiled(After(b, moves));
    StaysBeyond(b.state, After(b, moves).state, Expects(c).element, Expects(c).revision);
    StaleRefused(After(b, moves).state, c, env);
  }
}

/** What everything has been through: in the journal of every run, whatever is not in its
    first state has been in one from which the table leads there. */
module Stages {
  import opened States
  import opened Records
  import opened Replay
  import opened Commands
  import opened Invariant
  import opened Chains
  import opened Agreement
  import opened Lifecycle
  import opened Effects
  import opened TargetEffects
  import opened TransactionEffects
  import opened RetirementEffects
  import opened Outcomes
  import opened Histories
  import opened References
  import opened OwnerVerdicts
  import opened TargetVerdicts
  import opened Revisions

  datatype Stage =
    | LeaseStage(lease: LeaseState)
    | AgentStage(agent: AgentState)
    | ExecStage(exec: ExecState)
    | TargetStage(target: TargetState)
    | RunStage(run: RunState)
    | OperationStage(operation: OperationState)
    | IncidentStage(incident: IncidentState)

  predicate StageStep(p: Stage, q: Stage) {
    || (p.LeaseStage? && q.LeaseStage? && LeaseStep(p.lease, q.lease))
    || (p.AgentStage? && q.AgentStage? && AgentStep(p.agent, q.agent))
    || (p.ExecStage? && q.ExecStage? && ExecStep(p.exec, q.exec))
    || (p.TargetStage? && q.TargetStage? && TargetStep(p.target, q.target))
    || (p.RunStage? && q.RunStage? && RunStep(p.run, q.run))
    || (p.OperationStage? && q.OperationStage? && OperationStep(p.operation, q.operation))
    || (p.IncidentStage? && q.IncidentStage? && IncidentStep(p.incident, q.incident))
  }

  function Rank(g: Stage): nat {
    match g
    case LeaseStage(state) => LeaseRank(state)
    case AgentStage(state) => AgentRank(state)
    case ExecStage(state) => ExecRank(state)
    case TargetStage(state) => TargetRank(state)
    case RunStage(state) => RunRank(state)
    case OperationStage(state) => OperationRank(state)
    case IncidentStage(state) => IncidentRank(state)
  }

  /** The first stage of everything has rank 0. */
  predicate First(g: Stage) {
    g in {LeaseStage(LeaseActive), AgentStage(AgentProvisioning), ExecStage(ExecRequested),
          TargetStage(TargetProvisioning), RunStage(RunRequested), OperationStage(OperationRequested),
          IncidentStage(IncidentOpen)}
  }

  ghost predicate StageAt(s: State, x: Element, g: Stage) {
    match x
    case TheLease(id) => id in s.leases && g == LeaseStage(s.leases[id].state)
    case TheAgent(id, generation) => HasAgent(s, id, generation) && g == AgentStage(AgentAt(s, id, generation).state)
    case TheExec(id) => id in s.execs && g == ExecStage(s.execs[id].state)
    case TheTarget(_) => false
    case TheRealization(id, generation) =>
      HasTarget(s, id, generation) && g == TargetStage(TargetAt(s, id, generation).state)
    case TheRun(id, runId) => exists r :: RunIn(s, id, runId, r) && g == RunStage(r.state)
    case TheOperation(id, operationId) => exists o :: OperationIn(s, id, operationId, o) && g == OperationStage(o.state)
    case TheIncident(id) => id in s.incidents && g == IncidentStage(s.incidents[id].state)
  }

  ghost predicate Staged(s: State, x: Element) { exists g :: StageAt(s, x, g) }

  /** An element is in one stage. */
  lemma OneStage(s: State, x: Element, g: Stage, h: Stage)
    requires TargetsFiled(s) && StageAt(s, x, g) && StageAt(s, x, h)
    ensures g == h
  {
    match x
    case TheRun(id, runId) => RunFound(s, id, runId);
    case TheOperation(id, operationId) => OperationFound(s, id, operationId);
    case _ =>
  }

  lemma CoherentFiled(s: State)
    requires Coherent(s)
    ensures TargetsFiled(s) && AgentsFiled(s)
  {
    forall id | id in s.targets ensures s.targets[id].id == id && Numbered(s.targets[id]) {
      assert CoherentTarget(s, id);
    }
    forall id | id in s.agents ensures s.agents[id].id == id && AgentNumbered(s.agents[id]) {
      assert CoherentAgent(s, id);
    }
  }

  // --------------------------------------------------------------------------- one record

  lemma RunStaged(s: State, v: Target, id: Token, runId: Token, g: Stage) returns (h: Stage)
    requires AcceptsTarget(s, v) && StageAt(s, TheRun(id, runId), g)
    ensures StageAt(Put(s, TargetBody(v)), TheRun(id, runId), h) && (h == g || StageStep(g, h))
  {
    var t := Put(s, TargetBody(v));
    var q :| RunIn(s, id, runId, q) && g == RunStage(q.state);
    if v.id == id {
      TargetAdvanced(s.targets[id], v);
      assert RunGoesOn(q, v.runs);
      var r :| r in v.runs && RunFollows(q, r);
      RunsNext(s.targets[id], v, q, r);
      assert RunIn(t, id, runId, r);
      h := RunStage(r.state);
    } else {
      assert RunIn(t, id, runId, q);
      h := g;
    }
  }

  lemma OperationStaged(s: State, v: Target, id: Token, operationId: Token, g: Stage) returns (h: Stage)
    requires AcceptsTarget(s, v) && StageAt(s, TheOperation(id, operationId), g)
    ensures StageAt(Put(s, TargetBody(v)), TheOperation(id, operationId), h) && (h == g || StageStep(g, h))
  {
    var t := Put(s, TargetBody(v));
    var q :| OperationIn(s, id, operationId, q) && g == OperationStage(q.state);
    if v.id == id {
      TargetAdvanced(s.targets[id], v);
      assert OperationGoesOn(q, v.operations);
      var o :| o in v.operations && OperationFollows(q, o);
      OperationsNext(s.targets[id], v, q, o);
      assert OperationIn(t, id, operationId, o);
      h := OperationStage(o.state);
    } else {
      assert OperationIn(t, id, operationId, q);
      h := g;
    }
  }

  lemma RealizationStaged(s: State, v: Target, id: Token, generation: nat, g: Stage) returns (h: Stage)
    requires AcceptsTarget(s, v) && StageAt(s, TheRealization(id, generation), g)
    ensures StageAt(Put(s, TargetBody(v)), TheRealization(id, generation), h) && (h == g || StageStep(g, h))
  {
    var t := Put(s, TargetBody(v));
    if v.id == id {
      assert TargetGenAdvances(s.targets[id].generations[generation - 1], v.generations[generation - 1]);
    }
    h := TargetStage(TargetAt(t, id, generation).state);
  }

  lemma AgentStaged(s: State, v: Agent, id: Token, generation: nat, g: Stage) returns (h: Stage)
    requires AcceptsAgent(s, v) && StageAt(s, TheAgent(id, generation), g)
    ensures StageAt(Put(s, AgentBody(v)), TheAgent(id, generation), h) && (h == g || StageStep(g, h))
  {
    var t := Put(s, AgentBody(v));
    if v.id == id {
      assert AgentGenAdvances(s.agents[id].generations[generation - 1], v.generations[generation - 1]);
    }
    h := AgentStage(AgentAt(t, id, generation).state);
  }

  /** The record is of the kind that holds the element. */
  predicate Concerns(body: Aggregate, x: Element) {
    match x
    case TheLease(_) => body.LeaseBody?
    case TheAgent(_, _) => body.AgentBody?
    case TheExec(_) => body.ExecBody?
    case TheIncident(_) => body.IncidentBody?
    case _ => body.TargetBody?
  }

  lemma Unconcerned(s: State, body: Aggregate, x: Element, g: Stage)
    requires StageAt(s, x, g) && !Concerns(body, x)
    ensures StageAt(Put(s, body), x, g)
  {
    match x
    case TheRun(id, runId) =>
      var r :| RunIn(s, id, runId, r) && g == RunStage(r.state);
      assert RunIn(Put(s, body), id, runId, r);
    case TheOperation(id, operationId) =>
      var o :| OperationIn(s, id, operationId, o) && g == OperationStage(o.state);
      assert OperationIn(Put(s, body), id, operationId, o);
    case _ =>
  }

  lemma LeaseStaged(s: State, v: Lease, id: Token, g: Stage) returns (h: Stage)
    requires AcceptsLease(s, v) && StageAt(s, TheLease(id), g)
    ensures StageAt(Put(s, LeaseBody(v)), TheLease(id), h) && (h == g || StageStep(g, h))
  {
    var t := Put(s, LeaseBody(v));
    h := LeaseStage(t.leases[id].state);
  }

  lemma ExecStaged(s: State, v: Exec, id: Token, g: Stage) returns (h: Stage)
    requires AcceptsExec(s, v) && StageAt(s, TheExec(id), g)
    ensures StageAt(Put(s, ExecBody(v)), TheExec(id), h) && (h == g || StageStep(g, h))
  {
    var t := Put(s, ExecBody(v));
    h := ExecStage(t.execs[id].state);
  }

  lemma IncidentStaged(s: State, v: Incident, id: Token, g: Stage) returns (h: Stage)
    requires AcceptsIncident(s, v) && StageAt(s, TheIncident(id), g)
    ensures StageAt(Put(s, IncidentBody(v)), TheIncident(id), h) && (h == g || StageStep(g, h))
  {
    var t := Put(s, IncidentBody(v));
    h := IncidentStage(t.incidents[id].state);
  }

  /** A record leaves every stage, or moves it by a step of its table. */
  lemma RecordStages(s: State, c: Control, x: Element, g: Stage) returns (h: Stage)
    requires Accepts(s, c) && StageAt(s, x, g)
    ensures StageAt(Put(s, c.body), x, h) && (h == g || StageStep(g, h))
  {
    if !Concerns(c.body, x) {
      Unconcerned(s, c.body, x, g);
      h := g;
    } else {
      match x
      case TheLease(id) => h := LeaseStaged(s, c.body.lease, id, g);
      case TheAgent(id, generation) => h := AgentStaged(s, c.body.agent, id, generation, g);
      case TheExec(id) => h := ExecStaged(s, c.body.exec, id, g);
      case TheTarget(_) => h := g;
      case TheRealization(id, generation) => h := RealizationStaged(s, c.body.target, id, generation, g);
      case TheRun(id, runId) => h := RunStaged(s, c.body.target, id, runId, g);
      case TheOperation(id, operationId) => h := OperationStaged(s, c.body.target, id, operationId, g);
      case TheIncident(id) => h := IncidentStaged(s, c.body.incident, id, g);
    }
  }

  // --------------------------------------------------------------- what commands introduce

  ghost predicate AgentExtends(p: Agent, v: Agent) {
    forall k | |p.generations| <= k < |v.generations| :: v.generations[k].state.AgentProvisioning?
  }

  /** Whatever the target has in addition is in its first state. */
  ghost predicate TargetExtends(p: Target, v: Target) {
    && (forall k | |p.generations| <= k < |v.generations| :: v.generations[k].state.TargetProvisioning?)
    && (forall k | 0 <= k < |v.runs| ::
          (k < |p.runs| && v.runs[k].id == p.runs[k].id) || v.runs[k].state.RunRequested?)
    && (forall k | 0 <= k < |v.operations| ::
          (k < |p.operations| && v.operations[k].id == p.operations[k].id) || v.operations[k].state.OperationRequested?)
  }

  predicate FreshTarget(v: Target) {
    && v.runs == [] && v.operations == []
    && forall k | 0 <= k < |v.generations| :: v.generations[k].state.TargetProvisioning?
  }

  ghost predicate OwnersIntroduced(s: State, t: State) {
    && (forall id | id in t.leases && id !in s.leases :: t.leases[id].state.LeaseActive?)
    && (forall id | id in t.agents ::
          if id in s.agents then AgentExtends(s.agents[id], t.agents[id])
          else forall k | 0 <= k < |t.agents[id].generations| :: t.agents[id].generations[k].state.AgentProvisioning?)
  }

  ghost predicate TargetsIntroduced(s: State, t: State) {
    forall id | id in t.targets ::
      if id in s.targets then TargetExtends(s.targets[id], t.targets[id]) else FreshTarget(t.targets[id])
  }

  /** Everything that is recorded in addition is in its first state. */
  ghost predicate Introduced(s: State, t: State) {
    && OwnersIntroduced(s, t) && TargetsIntroduced(s, t)
    && (forall id | id in t.execs && id !in s.execs :: t.execs[id].state.ExecRequested?)
    && (forall id | id in t.incidents && id !in s.incidents :: t.incidents[id].state.IncidentOpen?)
  }

  lemma RunIntroduced(s: State, t: State, id: Token, runId: Token, g: Stage)
    requires TargetsIntroduced(s, t) && StageAt(t, TheRun(id, runId), g) && !Staged(s, TheRun(id, runId))
    ensures First(g)
  {
    var r :| RunIn(t, id, runId, r) && g == RunStage(r.state);
    var k :| 0 <= k < |t.targets[id].runs| && t.targets[id].runs[k] == r;
    if id in s.targets && k < |s.targets[id].runs| && s.targets[id].runs[k].id == runId {
      assert RunIn(s, id, runId, s.targets[id].runs[k]);
      assert StageAt(s, TheRun(id, runId), RunStage(s.targets[id].runs[k].state));
    }
  }

  lemma OperationIntroduced(s: State, t: State, id: Token, operationId: Token, g: Stage)
    requires TargetsIntroduced(s, t) && StageAt(t, TheOperation(id, operationId), g)
    requires !Staged(s, TheOperation(id, operationId))
    ensures First(g)
  {
    var o :| OperationIn(t, id, operationId, o) && g == OperationStage(o.state);
    var k :| 0 <= k < |t.targets[id].operations| && t.targets[id].operations[k] == o;
    if id in s.targets && k < |s.targets[id].operations| && s.targets[id].operations[k].id == operationId {
      assert OperationIn(s, id, operationId, s.targets[id].operations[k]);
      assert StageAt(s, TheOperation(id, operationId), OperationStage(s.targets[id].operations[k].state));
    }
  }

  lemma IntroducedFirst(s: State, t: State, x: Element, g: Stage)
    requires Introduced(s, t) && StageAt(t, x, g) && !Staged(s, x)
    ensures First(g)
  {
    match x
    case TheLease(id) => assert id in s.leases ==> StageAt(s, x, LeaseStage(s.leases[id].state));
    case TheAgent(id, n) => assert HasAgent(s, id, n) ==> StageAt(s, x, AgentStage(AgentAt(s, id, n).state));
    case TheExec(id) => assert id in s.execs ==> StageAt(s, x, ExecStage(s.execs[id].state));
    case TheTarget(_) =>
    case TheRealization(id, n) => assert HasTarget(s, id, n) ==> StageAt(s, x, TargetStage(TargetAt(s, id, n).state));
    case TheRun(id, runId) => RunIntroduced(s, t, id, runId, g);
    case TheOperation(id, operationId) => OperationIntroduced(s, t, id, operationId, g);
    case TheIncident(id) => assert id in s.incidents ==> StageAt(s, x, IncidentStage(s.incidents[id].state));
  }

  lemma OwnersIntroduce(s: State, c: OwnerCommand, env: Env, t: State)
    requires DoesOwner(s, c, env, t)
    ensures Introduced(s, t)
  {}

  lemma ExecsIntroduce(s: State, c: ExecCommand, env: Env, t: State)
    requires DoesExec(s, c, env, t)
    ensures Introduced(s, t)
  {}

  lemma TargetsIntroduce(s: State, c: TargetCommand, env: Env, t: State)
    requires DoesTarget(s, c, env, t)
    ensures Introduced(s, t)
  {
    match c
    case CreateTargetCommand(_, _, _, _, _, _) =>
    case TransitionTargetGenCommand(id, generation, _, state) => MoveIntroduces(s, t, id, generation, state, env);
    case BindTargetPlanCommand(id, generation, _, binding) => BindingIntroduces(s, t, id, generation, binding, env);
    case ResetTargetCommand(id, _, incidentId) => ResetIntroduces(s, t, id, incidentId, env);
    case QuarantineTargetCommand(id, _, _, _) => QuarantineIntroduces(s, t, id, env);
  }

  lemma MoveIntroduces(s: State, t: State, id: Token, generation: nat, state: TargetState, env: Env)
    requires MovesGen(s, t, id, generation, state, env)
    ensures Introduced(s, t)
  {}

  lemma BindingIntroduces(s: State, t: State, id: Token, generation: nat, binding: Binding, env: Env)
    requires BindsGen(s, t, id, generation, binding, env)
    ensures Introduced(s, t)
  {}

  lemma QuarantineIntroduces(s: State, t: State, id: Token, env: Env)
    requires Quarantines(s, t, id, env)
    ensures Introduced(s, t)
  {}

  lemma ResetIntroduces(s: State, t: State, id: Token, incidentId: Token, env: Env)
    requires Resets(s, t, id, incidentId, env)
    ensures Introduced(s, t)
  {}

  lemma RunsIntroduce(s: State, c: RunCommand, env: Env, t: State)
    requires DoesRun(s, c, env, t)
    ensures Introduced(s, t)
  {
    match c
    case FinalizeRunCommand(id, runId, _, failed, bundle, ids) =>
      EndIntroduces(s, t, id, runId, failed, bundle, ids, env);
    case CreateOperationCommand(id, runId, description) => OperationIntroduces(s, t, id, runId, description, env);
    case _ =>
  }

  lemma EndIntroduces(s: State, t: State, id: Token, runId: Token, failed: bool, bundle: Bundle, ids: seq<Token>,
      env: Env)
    requires EndsRun(s, t, id, runId, failed, bundle, ids, env)
    ensures Introduced(s, t)
  {}

  lemma OperationIntroduces(s: State, t: State, id: Token, runId: Token, description: Token, env: Env)
    requires CreatesOperation(s, t, id, runId, description, env)
    ensures Introduced(s, t)
  {}

  lemma IncidentsIntroduce(s: State, c: IncidentCommand, env: Env, t: State)
    requires DoesIncident(s, c, env, t)
    ensures Introduced(s, t)
  {
    match c
    case CreateIncidentCommand(wanted, evidence) => CreationIntroduces(s, t, wanted, evidence, env);
    case RecoverIncidentCommand(id, _, resource, strategy, acknowledgement) =>
      RecoveryIntroduces(s, t, id, resource, strategy, acknowledgement, env);
    case _ =>
  }

  lemma CreationIntroduces(s: State, t: State, wanted: IncidentIdentity, evidence: Evidence, env: Env)
    requires CreatesIncident(s, t, wanted, evidence, env)
    ensures Introduced(s, t)
  {}

  lemma RecoveryIntroduces(s: State, t: State, id: Token, resource: Resource, strategy: Token,
      acknowledgement: Token, env: Env)
    requires Recovers(s, t, id, resource, strategy, acknowledgement, env)
    ensures Introduced(s, t)
  {}

  lemma TerminationsIntroduce(s: State, c: TerminationCommand, env: Env, t: State)
    requires DoesTermination(s, c, env, t)
    ensures Introduced(s, t)
  {}

  lemma OwnersWrittenIntroduce(s: State, c: OwnerCommand, env: Env)
    requires Filed(s) && HandleOwner(s, c, env).Written?
    ensures Introduced(s, Folded(s, HandleOwner(s, c, env).records))
  {
    OwnersDo(s, c, env);
    OwnersIntroduce(s, c, env, Folded(s, HandleOwner(s, c, env).records));
  }

  lemma ExecsWrittenIntroduce(s: State, c: ExecCommand, env: Env)
    requires Filed(s) && HandleExec(s, c, env).Written?
    ensures Introduced(s, Folded(s, HandleExec(s, c, env).records))
  {
    ExecsDo(s, c, env);
    ExecsIntroduce(s, c, env, Folded(s, HandleExec(s, c, env).records));
  }

  lemma TargetsWrittenIntroduce(s: State, c: TargetCommand, env: Env)
    requires Filed(s) && HandleTarget(s, c, env).Written?
    ensures Introduced(s, Folded(s, HandleTarget(s, c, env).records))
  {
    TargetsDo(s, c, env);
    TargetsIntroduce(s, c, env, Folded(s, HandleTarget(s, c, env).records));
  }

  lemma RunsWrittenIntroduce(s: State, c: RunCommand, env: Env)
    requires Filed(s) && HandleRun(s, c, env).Written?
    ensures Introduced(s, Folded(s, HandleRun(s, c, env).records))
  {
    RunsDo(s, c, env);
    RunsIntroduce(s, c, env, Folded(s, HandleRun(s, c, env).records));
  }

  lemma IncidentsWrittenIntroduce(s: State, c: IncidentCommand, env: Env)
    requires Filed(s) && HandleIncident(s, c, env).Written?
    ensures Introduced(s, Folded(s, HandleIncident(s, c, env).records))
  {
    IncidentsDo(s, c, env);
    IncidentsIntroduce(s, c, env, Folded(s, HandleIncident(s, c, env).records));
  }

  lemma TerminationsWrittenIntroduce(s: State, c: TerminationCommand, env: Env)
    requires Filed(s) && HandleTermination(s, c, env).Written?
    ensures Introduced(s, Folded(s, HandleTermination(s, c, env).records))
  {
    TerminationsDo(s, c, env);
    TerminationsIntroduce(s, c, env, Folded(s, HandleTermination(s, c, env).records));
  }

  lemma WrittenIntroduces(s: State, c: Command, env: Env)
    requires Filed(s) && Handle(s, c, env).Written?
    ensures Introduced(s, Folded(s, Handle(s, c, env).records))
  {
    match c
    case Owner(o) => OwnersWrittenIntroduce(s, o, env);
    case OnExec(o) => ExecsWrittenIntroduce(s, o, env);
    case OnTarget(o) => TargetsWrittenIntroduce(s, o, env);
    case OnRun(o) => RunsWrittenIntroduce(s, o, env);
    case OnIncident(o) => IncidentsWrittenIntroduce(s, o, env);
    case Terminating(o) => TerminationsWrittenIntroduce(s, o, env);
  }

  // -------------------------------------------------------------------------- transactions

  lemma {:induction false} ReplayedMore(s: State, journal: seq<Control>, more: seq<Control>)
    requires Replayed(s, journal).Some?
    ensures Replayed(s, journal + more) == Replayed(Replayed(s, journal).value, more)
    decreases |more|
  {
    if more == [] {
      assert journal + more == journal;
    } else {
      var front := more[..|more| - 1];
      ReplayedMore(s, journal, front);
      assert (journal + more)[..|journal + more| - 1] == journal + front;
    }
  }

  lemma {:induction false} PrefixReads(s: State, journal: seq<Control>, k: nat)
    requires k <= |journal| && Replayed(s, journal).Some?
    ensures Replayed(s, journal[..k]).Some?
    decreases |journal|
  {
    if k == |journal| {
      assert journal[..k] == journal;
    } else {
      var front := journal[..|journal| - 1];
      PrefixReads(s, front, k);
      assert front[..k] == journal[..k];
    }
  }

  lemma PrefixReplayed(s: State, journal: seq<Control>, k: nat)
    requires k <= |journal| && Replayed(s, journal).Some?
    ensures Replayed(s, journal[..k]).Some?
    ensures Replayed(Replayed(s, journal[..k]).value, journal[k..]) == Replayed(s, journal)
  {
    PrefixReads(s, journal, k);
    ReplayedMore(s, journal[..k], journal[k..]);
    assert journal[..k] + journal[k..] == journal;
  }

  lemma RunGoesFurther(s: State, t: State, id: Token, runId: Token, g: Stage) returns (h: Stage)
    requires TargetsContinue(s.targets, t.targets) && StageAt(s, TheRun(id, runId), g)
    ensures StageAt(t, TheRun(id, runId), h) && (h == g || Rank(g) < Rank(h))
  {
    var q :| RunIn(s, id, runId, q) && g == RunStage(q.state);
    assert RunGoesOn(q, t.targets[id].runs);
    var r :| r in t.targets[id].runs && RunFollows(q, r);
    assert RunIn(t, id, runId, r);
    h := RunStage(r.state);
  }

  lemma OperationGoesFurther(s: State, t: State, id: Token, operationId: Token, g: Stage) returns (h: Stage)
    requires TargetsContinue(s.targets, t.targets) && StageAt(s, TheOperation(id, operationId), g)
    ensures StageAt(t, TheOperation(id, operationId), h) && (h == g || Rank(g) < Rank(h))
  {
    var q :| OperationIn(s, id, operationId, q) && g == OperationStage(q.state);
    assert OperationGoesOn(q, t.targets[id].operations);
    var o :| o in t.targets[id].operations && OperationFollows(q, o);
    assert OperationIn(t, id, operationId, o);
    h := OperationStage(o.state);
  }

  /** What continues a projection has everything in the same stage or a later one. */
  lemma GoesFurther(s: State, t: State, x: Element, g: Stage) returns (h: Stage)
    requires Continues(s, t) && StageAt(s, x, g)
    ensures StageAt(t, x, h) && (h == g || Rank(g) < Rank(h))
  {
    match x
    case TheLease(id) => h := LeaseStage(t.leases[id].state);
    case TheAgent(id, n) => h := AgentStage(AgentAt(t, id, n).state);
    case TheExec(id) => h := ExecStage(t.execs[id].state);
    case TheTarget(_) => h := g;
    case TheRealization(id, n) => h := TargetStage(TargetAt(t, id, n).state);
    case TheRun(id, runId) => h := RunGoesFurther(s, t, id, runId, g);
    case TheOperation(id, operationId) => h := OperationGoesFurther(s, t, id, operationId, g);
    case TheIncident(id) => h := IncidentStage(t.incidents[id].state);
  }

  lemma NothingBeforeFirst(g: Stage, h: Stage)
    requires First(h) && (h == g || Rank(g) < Rank(h))
    ensures First(g)
  {}

  /** What stands between a projection and a later one that introduces it is in its first stage. */
  lemma IntroducedBetween(s: State, u: State, t: State, x: Element, g: Stage)
    requires Introduced(s, t) && Continues(u, t) && !Staged(s, x) && StageAt(u, x, g)
    ensures First(g)
  {
    var h := GoesFurther(u, t, x, g);
    IntroducedFirst(s, t, x, h);
    NothingBeforeFirst(g, h);
  }

  // --------------------------------------------------------------------------- in order

  /** Where an element was that is now in stage `g`: nowhere, in the same stage, or one step before. */
  ghost predicate Came(p: State, x: Element, g: Stage) {
    || (First(g) && !Staged(p, x))
    || StageAt(p, x, g)
    || exists h :: StageAt(p, x, h) && StageStep(h, g)
  }

  /** A record of the transaction from `s` to `t`, read in the projection `u`. */
  ghost predicate Amid(s: State, u: State, c: Control, t: State) {
    && Accepts(u, c) && TargetsFiled(Put(u, c.body))
    && Continues(s, u) && Continues(Put(u, c.body), t)
  }

  lemma KnownCame(u: State, c: Control, x: Element, g: Stage, h: Stage)
    requires Accepts(u, c) && TargetsFiled(Put(u, c.body)) && StageAt(Put(u, c.body), x, g) && StageAt(u, x, h)
    ensures Came(u, x, g)
  {
    var k := RecordStages(u, c, x, h);
    OneStage(Put(u, c.body), x, g, k);
  }

  lemma NewCame(s: State, u: State, v: State, t: State, x: Element, g: Stage)
    requires Introduced(s, t) && Continues(s, u) && Continues(v, t) && StageAt(v, x, g) && !Staged(u, x)
    ensures Came(u, x, g)
  {
    if h :| StageAt(s, x, h) {
      var k := GoesFurther(s, u, x, h);
      assert false;
    }
    IntroducedBetween(s, v, t, x, g);
  }

  lemma RecordCame(s: State, u: State, c: Control, t: State, x: Element, g: Stage)
    requires Amid(s, u, c, t) && Introduced(s, t) && StageAt(Put(u, c.body), x, g)
    ensures Came(u, x, g)
  {
    if h :| StageAt(u, x, h) {
      KnownCame(u, c, x, g, h);
    } else {
      NewCame(s, u, Put(u, c.body), t, x, g);
    }
  }

  // ---------------------------------------------------------------------------- every run

  /** The element was in a stage after so many records. */
  ghost predicate StageWas(journal: seq<Control>, k: nat, x: Element, g: Stage) {
    k <= |journal| && Replayed(EMPTY, journal[..k]).Some? && StageAt(Replayed(EMPTY, journal[..k]).value, x, g)
  }

  /** From each record to the next, everything came from where the tables say. */
  ghost predicate Lineal(journal: seq<Control>) {
    forall k, x, g | 0 < k <= |journal| && StageWas(journal, k, x, g) ::
      Replayed(EMPTY, journal[..k - 1]).Some? && Came(Replayed(EMPTY, journal[..k - 1]).value, x, g)
  }

  lemma PrefixFiled(journal: seq<Control>, k: nat)
    requires k <= |journal| && Replayed(EMPTY, journal).Some?
    ensures Replayed(EMPTY, journal[..k]).Some? && TargetsFiled(Replayed(EMPTY, journal[..k]).value)
  {
    PrefixReads(EMPTY, journal, k);
    JournalCoherent(journal[..k]);
    CoherentFiled(Replayed(EMPTY, journal[..k]).value);
  }

  lemma LastRead(journal: seq<Control>, k: nat)
    requires 0 < k <= |journal| && Replayed(EMPTY, journal).Some?
    ensures Replayed(EMPTY, journal[..k - 1]).Some? && Replayed(EMPTY, journal[..k]).Some?
    ensures var u := Replayed(EMPTY, journal[..k - 1]).value;
            Accepts(u, journal[k - 1]) && Replayed(EMPTY, journal[..k]).value == Put(u, journal[k - 1].body)
  {
    PrefixReads(EMPTY, journal, k);
    assert journal[..k][..k - 1] == journal[..k - 1] && journal[..k][k - 1] == journal[k - 1];
  }

  /** A projection is continued by all that follow. */
  lemma PrefixContinues(journal: seq<Control>, k: nat)
    requires k <= |journal| && Replayed(EMPTY, journal).Some?
    ensures Replayed(EMPTY, journal[..k]).Some?
    ensures Continues(Replayed(EMPTY, journal[..k]).value, Replayed(EMPTY, journal).value)
  {
    PrefixReplayed(EMPTY, journal, k);
    JournalContinues(Replayed(EMPTY, journal[..k]).value, journal[k..]);
  }

  lemma TransactionAmid(journal: seq<Control>, n: nat, k: nat)
    requires n < k <= |journal| && Replayed(EMPTY, journal).Some?
    ensures Replayed(EMPTY, journal[..n]).Some? && Replayed(EMPTY, journal[..k - 1]).Some?
    ensures Amid(Replayed(EMPTY, journal[..n]).value, Replayed(EMPTY, journal[..k - 1]).value, journal[k - 1],
                 Replayed(EMPTY, journal).value)
    ensures Replayed(EMPTY, journal[..k]) == Some(Put(Replayed(EMPTY, journal[..k - 1]).value, journal[k - 1].body))
  {
    LastRead(journal, k);
    PrefixFiled(journal, k);
    PrefixContinues(journal[..k - 1], n);
    assert journal[..k - 1][..n] == journal[..n];
    PrefixContinues(journal, k);
  }

  /** A record of the transaction that began after the `n`th. */
  lemma TransactionCame(journal: seq<Control>, n: nat, k: nat, x: Element, g: Stage)
    requires n < k <= |journal| && Replayed(EMPTY, journal).Some? && Replayed(EMPTY, journal[..n]).Some?
    requires Introduced(Replayed(EMPTY, journal[..n]).value, Replayed(EMPTY, journal).value)
    requires StageWas(journal, k, x, g)
    ensures Replayed(EMPTY, journal[..k - 1]).Some? && Came(Replayed(EMPTY, journal[..k - 1]).value, x, g)
  {
    TransactionAmid(journal, n, k);
    RecordCame(Replayed(EMPTY, journal[..n]).value, Replayed(EMPTY, journal[..k - 1]).value, journal[k - 1],
               Replayed(EMPTY, journal).value, x, g);
  }

  lemma EarlierCame(journal: seq<Control>, more: seq<Control>, k: nat, x: Element, g: Stage)
    requires Lineal(journal) && 0 < k <= |journal| && StageWas(journal + more, k, x, g)
    ensures Replayed(EMPTY, (journal + more)[..k - 1]).Some?
    ensures Came(Replayed(EMPTY, (journal + more)[..k - 1]).value, x, g)
  {
    assert (journal + more)[..k - 1] == journal[..k - 1];
    assert (journal + more)[..k] == journal[..k];
    assert StageWas(journal, k, x, g);
  }

  lemma LinealOn(journal: seq<Control>, more: seq<Control>)
    requires Lineal(journal) && Replayed(EMPTY, journal).Some? && Replayed(EMPTY, journal + more).Some?
    requires Introduced(Replayed(EMPTY, journal).value, Replayed(EMPTY, journal + more).value)
    ensures Lineal(journal + more)
  {
    assert (journal + more)[..|journal|] == journal;
    forall k, x, g | 0 < k <= |journal + more| && StageWas(journal + more, k, x, g)
      ensures Replayed(EMPTY, (journal + more)[..k - 1]).Some?
      ensures Came(Replayed(EMPTY, (journal + more)[..k - 1]).value, x, g)
    {
      if k <= |journal| {
        EarlierCame(journal, more, k, x, g);
      } else {
        TransactionCame(journal + more, |journal|, k, x, g);
      }
    }
  }

  lemma CommitLineal(a: Sys, o: Outcome, at: Time)
    requires o.Written? && Agrees(a.state, o) && Replayed(EMPTY, a.journal) == Some(a.state) && Lineal(a.journal)
    requires Introduced(a.state, Folded(a.state, o.records))
    ensures Lineal(Commit(a, o, at).journal)
  {
    ReplayedMore(EMPTY, a.journal, o.records);
    ReplayedIsFolded(a.state, o.records);
    LinealOn(a.journal, o.records);
  }

  lemma StepLineal(a: Sys, m: Move)
    requires Consistent(a) && Allowed(a, m) && Lineal(a.journal)
    ensures Lineal(Step(a, m).journal)
  {
    if Handle(a.state, m.command, m.env).Written? {
      AllowedAgrees(a, m);
      InvFiled(a.state);
      WrittenIntroduces(a.state, m.command, m.env);
      CommitLineal(a, Handle(a.state, m.command, m.env), m.env.stamp);
    } else {
      RefusedStays(a, m);
    }
  }

  /** In the journal of every run of commands, everything came from where the tables say. */
  lemma {:induction false} RunsAreLineal(moves: seq<Move>)
    requires AllAllowed(START, moves)
    ensures Lineal(After(START, moves).journal)
    decreases |moves|
  {
    if moves != [] {
      var front := moves[..|moves| - 1];
      RunsAreLineal(front);
      StartConsistent();
      AfterConsistent(START, front);
      StepLineal(After(START, front), moves[|moves| - 1]);
    }
  }

  // ----------------------------------------------------------------- what must have been

  /** The tables lead to the stages `past` only by way of the stage `p`. */
  ghost predicate Barrier(p: Stage, past: set<Stage>) {
    forall g | g in past :: !First(g) && forall q | StageStep(q, g) :: q == p || q in past
  }

  /** Stage `p` was held after some record before the `k`th. */
  ghost predicate Held(journal: seq<Control>, k: nat, x: Element, p: Stage) {
    exists j: nat :: j < k && StageWas(journal, j, x, p)
  }

  lemma NothingStaged(journal: seq<Control>, x: Element, g: Stage)
    ensures !StageWas(journal, 0, x, g)
  {
    assert journal[..0] == [];
  }

  lemma PastBarrier(u: State, x: Element, g: Stage, p: Stage, past: set<Stage>) returns (h: Stage)
    requires Barrier(p, past) && g in past && Came(u, x, g)
    ensures StageAt(u, x, h) && (h == p || h in past)
  {
    if StageAt(u, x, g) {
      h := g;
    } else {
      h :| StageAt(u, x, h) && StageStep(h, g);
    }
  }

  lemma {:induction false} LinealPassed(
      journal: seq<Control>, k: nat, x: Element, g: Stage, p: Stage, past: set<Stage>)
    requires Lineal(journal) && StageWas(journal, k, x, g) && Barrier(p, past) && g in past
    ensures Held(journal, k, x, p)
    decreases k
  {
    if k == 0 {
      NothingStaged(journal, x, g);
    } else {
      var h := PastBarrier(Replayed(EMPTY, journal[..k - 1]).value, x, g, p, past);
      assert StageWas(journal, k - 1, x, h);
      if h != p { LinealPassed(journal, k - 1, x, h, p, past); }
    }
  }

  /** In every run of commands, whatever is past a barrier was at it, at some earlier record. */
  lemma RunsPassBarriers(moves: seq<Move>, k: nat, x: Element, g: Stage, p: Stage, past: set<Stage>)
    requires AllAllowed(START, moves) && StageWas(After(START, moves).journal, k, x, g)
    requires Barrier(p, past) && g in past
    ensures Held(After(START, moves).journal, k, x, p)
  {
    RunsAreLineal(moves);
    LinealPassed(After(START, moves).journal, k, x, g, p, past);
  }

  ghost predicate Only(p: Stage, g: Stage) {
    !First(g) && forall q | StageStep(q, g) :: q == p
  }

  lemma Widened(o: Stage, p: Stage, past: set<Stage>)
    requires Only(o, p) && Barrier(p, past)
    ensures Barrier(o, {p} + past)
  {}

  /** The stages of a run on the way to its completion, each a barrier to all that follow. */
  lemma RunBarriers()
    ensures Barrier(RunStage(RunFinalizing), {RunStage(RunCompleted)})
    ensures Barrier(RunStage(RunRunning), {RunStage(RunFinalizing)} + {RunStage(RunCompleted)})
    ensures Barrier(RunStage(RunObserving),
                    {RunStage(RunRunning)} + ({RunStage(RunFinalizing)} + {RunStage(RunCompleted)}))
    ensures Barrier(RunStage(RunPreparing),
                    {RunStage(RunObserving)} +
                    ({RunStage(RunRunning)} + ({RunStage(RunFinalizing)} + {RunStage(RunCompleted)})))
  {
    var completed := {RunStage(RunCompleted)};
    Widened(RunStage(RunRunning), RunStage(RunFinalizing), completed);
    Widened(RunStage(RunObserving), RunStage(RunRunning), {RunStage(RunFinalizing)} + completed);
    Widened(RunStage(RunPreparing), RunStage(RunObserving),
            {RunStage(RunRunning)} + ({RunStage(RunFinalizing)} + completed));
  }

  lemma TargetBarriers()
    ensures Barrier(TargetStage(TargetResettable), {TargetStage(TargetDestroyed)})
    ensures Barrier(TargetStage(TargetReady), {TargetStage(TargetResettable), TargetStage(TargetDestroyed)})
    ensures Barrier(TargetStage(TargetInstrumenting),
                    {TargetStage(TargetReady), TargetStage(TargetResettable), TargetStage(TargetDestroyed)})
  {}

  lemma ReadyBarrier()
    ensures Barrier(AgentStage(AgentReady),
                    {AgentStage(AgentRunning), AgentStage(AgentQuiescing), AgentStage(AgentSealed)})
  {}

  lemma AgentBarriers()
    ensures Barrier(AgentStage(AgentQuiescing), {AgentStage(AgentSealed)})
    ensures Barrier(AgentStage(AgentReady),
                    {AgentStage(AgentRunning), AgentStage(AgentQuiescing), AgentStage(AgentSealed)})
    ensures Barrier(AgentStage(AgentBooting),
                    {AgentStage(AgentReady)} +
                    {AgentStage(AgentRunning), AgentStage(AgentQuiescing), AgentStage(AgentSealed)})
  {
    ReadyBarrier();
    Widened(AgentStage(AgentBooting), AgentStage(AgentReady),
            {AgentStage(AgentRunning), AgentStage(AgentQuiescing), AgentStage(AgentSealed)});
  }

  lemma ExecBarriers()
    ensures Barrier(ExecStage(ExecRunning), {ExecStage(ExecCompleted)})
    ensures Barrier(ExecStage(ExecStarting), {ExecStage(ExecRunning)} + {ExecStage(ExecCompleted)})
  {
    Widened(ExecStage(ExecStarting), ExecStage(ExecRunning), {ExecStage(ExecCompleted)});
  }

  lemma OtherBarriers()
    ensures Barrier(OperationStage(OperationRunning), {OperationStage(OperationCompleted)})
    ensures Barrier(LeaseStage(LeaseReleasing), {LeaseStage(LeaseReleased)})
    ensures Barrier(IncidentStage(IncidentEvidenceSealed),
                    {IncidentStage(IncidentRecovering), IncidentStage(IncidentResolved)})
  {}

  lemma LinealHasBeen(journal: seq<Control>, k: nat, x: Element, g: Stage)
    requires Lineal(journal) && StageWas(journal, k, x, g)
    ensures g == TargetStage(TargetReady) ==> Held(journal, k, x, TargetStage(TargetInstrumenting))
    ensures g == ExecStage(ExecRunning) ==> Held(journal, k, x, ExecStage(ExecStarting))
    ensures g == RunStage(RunCompleted) ==> Held(journal, k, x, RunStage(RunFinalizing))
    ensures g == IncidentStage(IncidentResolved) ==> Held(journal, k, x, IncidentStage(IncidentEvidenceSealed))
  {
    if g == TargetStage(TargetReady) {
      TargetBarriers();
      LinealPassed(journal, k, x, g, TargetStage(TargetInstrumenting),
                   {TargetStage(TargetReady), TargetStage(TargetResettable), TargetStage(TargetDestroyed)});
    } else if g == ExecStage(ExecRunning) {
      ExecBarriers();
      LinealPassed(journal, k, x, g, ExecStage(ExecStarting), {ExecStage(ExecRunning)} + {ExecStage(ExecCompleted)});
    } else if g == RunStage(RunCompleted) {
      RunBarriers();
      LinealPassed(journal, k, x, g, RunStage(RunFinalizing), {RunStage(RunCompleted)});
    } else if g == IncidentStage(IncidentResolved) {
      OtherBarriers();
      LinealPassed(journal, k, x, g, IncidentStage(IncidentEvidenceSealed),
                   {IncidentStage(IncidentRecovering), IncidentStage(IncidentResolved)});
    }
  }

  /** So every ready target has been instrumenting, every running exec starting, every completed
      run finalizing, and every resolved incident sealed. */
  lemma WhatHasBeen(moves: seq<Move>, k: nat, x: Element, g: Stage)
    requires AllAllowed(START, moves) && StageWas(After(START, moves).journal, k, x, g)
    ensures var journal := After(START, moves).journal;
            && (g == TargetStage(TargetReady) ==> Held(journal, k, x, TargetStage(TargetInstrumenting)))
            && (g == ExecStage(ExecRunning) ==> Held(journal, k, x, ExecStage(ExecStarting)))
            && (g == RunStage(RunCompleted) ==> Held(journal, k, x, RunStage(RunFinalizing)))
            && (g == IncidentStage(IncidentResolved) ==> Held(journal, k, x, IncidentStage(IncidentEvidenceSealed)))
  {
    RunsAreLineal(moves);
    LinealHasBeen(After(START, moves).journal, k, x, g);
  }
}

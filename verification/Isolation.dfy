/** Sessions do not interfere: a committed command changes the records of one session only,
    so whatever runs under the others, a session that is left alone stays as it is. */
module Isolation {
  import opened States
  import opened Records
  import opened Replay
  import opened Commands
  import opened Invariant
  import opened LeaseCommands
  import opened Agreement
  import opened Lifecycle
  import opened Effects
  import opened TargetEffects
  import opened TransactionEffects
  import opened RetirementEffects
  import opened Outcomes

  // ------------------------------------------------------------------ records of a session

  function SessionsOf(m: map<Token, Session>, x: Token): map<Token, Session> { map id | id in m && id == x :: m[id] }

  function LeasesOf(m: map<Token, Lease>, x: Token): map<Token, Lease> {
    map id | id in m && m[id].identity.sessionId == x :: m[id]
  }

  function AgentsOf(m: map<Token, Agent>, x: Token): map<Token, Agent> {
    map id | id in m && m[id].sessionId == x :: m[id]
  }

  function ExecsOf(m: map<Token, Exec>, x: Token): map<Token, Exec> {
    map id | id in m && m[id].identity.sessionId == x :: m[id]
  }

  function TargetsOf(m: map<Token, Target>, x: Token): map<Token, Target> {
    map id | id in m && m[id].identity.sessionId == x :: m[id]
  }

  function IncidentsOf(m: map<Token, Incident>, x: Token): map<Token, Incident> {
    map id | id in m && m[id].identity.sessionId == x :: m[id]
  }

  /** The records of one session, of every kind. */
  function Slice(s: State, x: Token): State {
    State(SessionsOf(s.sessions, x), LeasesOf(s.leases, x), AgentsOf(s.agents, x), ExecsOf(s.execs, x),
          TargetsOf(s.targets, x), IncidentsOf(s.incidents, x))
  }

  ghost predicate SessionsAside(m: map<Token, Session>, n: map<Token, Session>, x: Token) {
    && (forall id | id in m && id != x :: id in n && n[id] == m[id])
    && (forall id | id in n && id != x :: id in m && n[id] == m[id])
  }

  lemma SessionsSlice(m: map<Token, Session>, n: map<Token, Session>, x: Token, y: Token)
    requires SessionsAside(m, n, x) && x != y
    ensures SessionsOf(n, y) == SessionsOf(m, y)
  {}

  ghost predicate LeasesAside(m: map<Token, Lease>, n: map<Token, Lease>, x: Token) {
    && (forall id | id in m && m[id].identity.sessionId != x :: id in n && n[id] == m[id])
    && (forall id | id in n && n[id].identity.sessionId != x :: id in m && n[id] == m[id])
  }

  lemma LeasesSlice(m: map<Token, Lease>, n: map<Token, Lease>, x: Token, y: Token)
    requires LeasesAside(m, n, x) && x != y
    ensures LeasesOf(n, y) == LeasesOf(m, y)
  {}

  lemma LeasePut(m: map<Token, Lease>, id: Token, v: Lease, x: Token)
    requires v.identity.sessionId == x && (id in m ==> m[id].identity.sessionId == x)
    ensures LeasesAside(m, m[id := v], x)
  {}

  ghost predicate AgentsAside(m: map<Token, Agent>, n: map<Token, Agent>, x: Token) {
    && (forall id | id in m && m[id].sessionId != x :: id in n && n[id] == m[id])
    && (forall id | id in n && n[id].sessionId != x :: id in m && n[id] == m[id])
  }

  lemma AgentsSlice(m: map<Token, Agent>, n: map<Token, Agent>, x: Token, y: Token)
    requires AgentsAside(m, n, x) && x != y
    ensures AgentsOf(n, y) == AgentsOf(m, y)
  {}

  lemma AgentPut(m: map<Token, Agent>, id: Token, v: Agent, x: Token)
    requires v.sessionId == x && (id in m ==> m[id].sessionId == x)
    ensures AgentsAside(m, m[id := v], x)
  {}

  ghost predicate ExecsAside(m: map<Token, Exec>, n: map<Token, Exec>, x: Token) {
    && (forall id | id in m && m[id].identity.sessionId != x :: id in n && n[id] == m[id])
    && (forall id | id in n && n[id].identity.sessionId != x :: id in m && n[id] == m[id])
  }

  lemma ExecsSlice(m: map<Token, Exec>, n: map<Token, Exec>, x: Token, y: Token)
    requires ExecsAside(m, n, x) && x != y
    ensures ExecsOf(n, y) == ExecsOf(m, y)
  {}

  lemma ExecPut(m: map<Token, Exec>, id: Token, v: Exec, x: Token)
    requires v.identity.sessionId == x && (id in m ==> m[id].identity.sessionId == x)
    ensures ExecsAside(m, m[id := v], x)
  {}

  ghost predicate TargetsAside(m: map<Token, Target>, n: map<Token, Target>, x: Token) {
    && (forall id | id in m && m[id].identity.sessionId != x :: id in n && n[id] == m[id])
    && (forall id | id in n && n[id].identity.sessionId != x :: id in m && n[id] == m[id])
  }

  lemma TargetsSlice(m: map<Token, Target>, n: map<Token, Target>, x: Token, y: Token)
    requires TargetsAside(m, n, x) && x != y
    ensures TargetsOf(n, y) == TargetsOf(m, y)
  {}

  lemma TargetPut(m: map<Token, Target>, id: Token, v: Target, x: Token)
    requires v.identity.sessionId == x && (id in m ==> m[id].identity.sessionId == x)
    ensures TargetsAside(m, m[id := v], x)
  {}

  ghost predicate IncidentsAside(m: map<Token, Incident>, n: map<Token, Incident>, x: Token) {
    && (forall id | id in m && m[id].identity.sessionId != x :: id in n && n[id] == m[id])
    && (forall id | id in n && n[id].identity.sessionId != x :: id in m && n[id] == m[id])
  }

  lemma IncidentsSlice(m: map<Token, Incident>, n: map<Token, Incident>, x: Token, y: Token)
    requires IncidentsAside(m, n, x) && x != y
    ensures IncidentsOf(n, y) == IncidentsOf(m, y)
  {}

  lemma IncidentPut(m: map<Token, Incident>, id: Token, v: Incident, x: Token)
    requires v.identity.sessionId == x && (id in m ==> m[id].identity.sessionId == x)
    ensures IncidentsAside(m, m[id := v], x)
  {}

  /** Every record that differs between two projections belongs to one session. */
  ghost predicate Aside(s: State, t: State, x: Token) {
    && SessionsAside(s.sessions, t.sessions, x) && LeasesAside(s.leases, t.leases, x)
    && AgentsAside(s.agents, t.agents, x)
    && ExecsAside(s.execs, t.execs, x) && TargetsAside(s.targets, t.targets, x)
    && IncidentsAside(s.incidents, t.incidents, x)
  }

  lemma AsideSlices(s: State, t: State, x: Token, y: Token)
    requires Aside(s, t, x) && x != y
    ensures Slice(t, y) == Slice(s, y)
  {
    SessionsSlice(s.sessions, t.sessions, x, y);
    LeasesSlice(s.leases, t.leases, x, y);
    AgentsSlice(s.agents, t.agents, x, y);
    ExecsSlice(s.execs, t.execs, x, y);
    TargetsSlice(s.targets, t.targets, x, y);
    IncidentsSlice(s.incidents, t.incidents, x, y);
  }

  lemma SamePlaces(s: State, x: Token)
    ensures Aside(s, s, x)
  {}

  // -------------------------------------------------------------------------- who owns what

  ghost predicate LeasesOwned(s: State) {
    forall id | id in s.leases :: s.leases[id].identity.agentId in s.agents ==>
      s.agents[s.leases[id].identity.agentId].sessionId == s.leases[id].identity.sessionId
  }

  ghost predicate ExecsOwned(s: State) {
    forall id | id in s.execs :: s.execs[id].identity.agentId in s.agents ==>
      s.agents[s.execs[id].identity.agentId].sessionId == s.execs[id].identity.sessionId
  }

  ghost predicate TargetsOwned(s: State) {
    forall id | id in s.targets :: s.targets[id].identity.leaseId in s.leases ==>
      s.leases[s.targets[id].identity.leaseId].identity.sessionId == s.targets[id].identity.sessionId
  }

  ghost predicate IncidentOwned(s: State, i: IncidentIdentity) {
    && (i.leaseId != 0 && i.leaseId in s.leases ==> s.leases[i.leaseId].identity.sessionId == i.sessionId)
    && (i.agentId != 0 && i.agentId in s.agents ==> s.agents[i.agentId].sessionId == i.sessionId)
    && (i.execId != 0 && i.execId in s.execs ==> s.execs[i.execId].identity.sessionId == i.sessionId)
    && (i.targetId != 0 && i.targetId in s.targets ==> s.targets[i.targetId].identity.sessionId == i.sessionId)
    && (i.runId != 0 ==> i.targetId != 0)
  }

  ghost predicate IncidentsOwned(s: State) {
    forall id | id in s.incidents :: IncidentOwned(s, s.incidents[id].identity)
  }

  ghost predicate LeaseIdsOwned(s: State) { 0 !in s.leases && 0 !in s.agents && 0 !in s.targets }

  ghost predicate Owns(s: State) {
    LeasesOwned(s) && ExecsOwned(s) && TargetsOwned(s) && IncidentsOwned(s) && LeaseIdsOwned(s)
  }

  lemma OwnersOwn(s: State)
    requires SessionsInv(s) && LeasesInv(s) && AgentsInv(s)
    ensures LeasesOwned(s)
  {
    forall id | id in s.leases && s.leases[id].identity.agentId in s.agents
      ensures s.agents[s.leases[id].identity.agentId].sessionId == s.leases[id].identity.sessionId
    {
      assert LeaseInv(s, id) && AgentInv(s, s.leases[id].identity.agentId);
    }
  }

  lemma WorkOwns(s: State)
    requires ExecsInv(s) && TargetsInv(s) && IncidentsInv(s)
    ensures ExecsOwned(s) && TargetsOwned(s) && IncidentsOwned(s)
  {
    forall id | id in s.execs && s.execs[id].identity.agentId in s.agents
      ensures s.agents[s.execs[id].identity.agentId].sessionId == s.execs[id].identity.sessionId
    {
      assert ExecInv(s, id);
    }
    forall id | id in s.targets && s.targets[id].identity.leaseId in s.leases
      ensures s.leases[s.targets[id].identity.leaseId].identity.sessionId == s.targets[id].identity.sessionId
    {
      assert TargetInv(s, id);
    }
    forall id | id in s.incidents ensures IncidentOwned(s, s.incidents[id].identity) {
      assert IncidentInv(s, id);
    }
  }

  lemma NoBlankIds(s: State)
    requires LeasesInv(s) && AgentsInv(s) && TargetsInv(s)
    ensures LeaseIdsOwned(s)
  {
    forall id | id in s.leases ensures id != 0 { assert LeaseInv(s, id); }
    forall id | id in s.agents ensures id != 0 { assert AgentInv(s, id); }
    forall id | id in s.targets ensures id != 0 { assert TargetInv(s, id); }
  }

  lemma InvOwns(s: State)
    requires Inv(s)
    ensures Owns(s)
  {
    OwnersOwn(s);
    WorkOwns(s);
    NoBlankIds(s);
  }

  // --------------------------------------------------------------- the session of a command

  function LeaseSession(s: State, id: Token): Token { if id in s.leases then s.leases[id].identity.sessionId else 0 }
  function AgentSession(s: State, id: Token): Token { if id in s.agents then s.agents[id].sessionId else 0 }
  function ExecSession(s: State, id: Token): Token { if id in s.execs then s.execs[id].identity.sessionId else 0 }
  function TargetSession(s: State, id: Token): Token { if id in s.targets then s.targets[id].identity.sessionId else 0 }
  function IncidentSession(s: State, id: Token): Token {
    if id in s.incidents then s.incidents[id].identity.sessionId else 0
  }

  function OwnerSubject(s: State, c: OwnerCommand, env: Env): Token {
    match c
    case AcquireCommand(_, _, _, _) => env.ids.session
    case RenewCommand(id, _, _) => LeaseSession(s, id)
    case TransitionAgentCommand(id, _, _, _) => AgentSession(s, id)
    case BindAgentPlanCommand(id, _, _, _) => AgentSession(s, id)
  }

  function ExecSubject(s: State, c: ExecCommand): Token {
    match c
    case CreateExecCommand(id, _) => LeaseSession(s, id)
    case TransitionExecCommand(id, _, _) => ExecSession(s, id)
    case FinalizeExecCommand(id, _, _, _, _) => ExecSession(s, id)
  }

  function TargetSubject(s: State, c: TargetCommand): Token {
    if c.CreateTargetCommand? then LeaseSession(s, c.leaseId) else TargetSession(s, c.targetId)
  }

  function IncidentSubject(s: State, c: IncidentCommand): Token {
    match c
    case CreateIncidentCommand(identity, _) => identity.sessionId
    case TransitionIncidentCommand(id, _, _, _, _, _) => IncidentSession(s, id)
    case RecoverIncidentCommand(id, _, _, _, _) => IncidentSession(s, id)
    case SealRunIncidentsCommand(id, _, _, _, _) => TargetSession(s, id)
  }

  /** The session that a command is about, as its request and the projection say. */
  function Subject(s: State, c: Command, env: Env): Token {
    match c
    case Owner(c) => OwnerSubject(s, c, env)
    case OnExec(c) => ExecSubject(s, c)
    case OnTarget(c) => TargetSubject(s, c)
    case OnRun(c) => TargetSession(s, c.targetId)
    case OnIncident(c) => IncidentSubject(s, c)
    case Terminating(c) => LeaseSession(s, c.leaseId)
  }

  // ------------------------------------------------------------------------ what it changes

  /** Identities that a command may be given are not in use. */
  ghost predicate Unused(s: State, ids: Ids) {
    && ids.session !in s.sessions && ids.lease !in s.leases && ids.agent !in s.agents
    && ids.exec !in s.execs && ids.target !in s.targets && ids.incident !in s.incidents
  }

  lemma OwnerAside(s: State, c: OwnerCommand, env: Env, t: State)
    requires Unused(s, env.ids) && DoesOwner(s, c, env, t)
    ensures Aside(s, t, OwnerSubject(s, c, env))
  {
    SamePlaces(s, OwnerSubject(s, c, env));
    match c
    case AcquireCommand(_, _, _, _) =>
      LeasePut(s.leases, env.ids.lease, t.leases[env.ids.lease], env.ids.session);
      AgentPut(s.agents, env.ids.agent, t.agents[env.ids.agent], env.ids.session);
    case RenewCommand(id, _, _) => LeasePut(s.leases, id, t.leases[id], LeaseSession(s, id));
    case TransitionAgentCommand(id, _, _, _) => AgentPut(s.agents, id, t.agents[id], AgentSession(s, id));
    case BindAgentPlanCommand(id, _, _, _) => AgentPut(s.agents, id, t.agents[id], AgentSession(s, id));
  }

  lemma ExecAside(s: State, c: ExecCommand, env: Env, t: State)
    requires Unused(s, env.ids) && ExecsOwned(s) && DoesExec(s, c, env, t)
    ensures Aside(s, t, ExecSubject(s, c))
  {
    SamePlaces(s, ExecSubject(s, c));
    match c
    case CreateExecCommand(id, _) => ExecPut(s.execs, env.ids.exec, t.execs[env.ids.exec], LeaseSession(s, id));
    case TransitionExecCommand(id, _, _) =>
      ExecPut(s.execs, id, t.execs[id], ExecSession(s, id));
      if t.agents != s.agents {
        var agentId := s.execs[id].identity.agentId;
        AgentPut(s.agents, agentId, t.agents[agentId], ExecSession(s, id));
      }
    case FinalizeExecCommand(id, _, _, _, _) => ExecPut(s.execs, id, t.execs[id], ExecSession(s, id));
  }

  lemma OnlyTargetAside(s: State, t: State, id: Token, x: Token)
    requires OnlyTarget(s, t, id) && t.targets[id].identity.sessionId == x
            && (id in s.targets ==> s.targets[id].identity.sessionId == x)
    ensures Aside(s, t, x)
  {
    SamePlaces(s, x);
    TargetPut(s.targets, id, t.targets[id], x);
  }

  lemma TargetAside(s: State, c: TargetCommand, env: Env, t: State)
    requires Unused(s, env.ids) && DoesTarget(s, c, env, t)
    ensures Aside(s, t, TargetSubject(s, c))
  {
    if t == s {
      SamePlaces(s, TargetSubject(s, c));
    } else {
      OnlyTargetAside(s, t, if c.CreateTargetCommand? then env.ids.target else c.targetId, TargetSubject(s, c));
    }
  }

  lemma RunAside(s: State, c: RunCommand, env: Env, t: State)
    requires DoesRun(s, c, env, t)
    ensures Aside(s, t, TargetSession(s, c.targetId))
  {
    OnlyTargetAside(s, t, c.targetId, TargetSession(s, c.targetId));
  }

  lemma CreateIncidentAside(s: State, t: State, wanted: IncidentIdentity, evidence: Evidence, env: Env)
    requires Unused(s, env.ids) && CreatesIncident(s, t, wanted, evidence, env)
    requires IncidentOwned(t, t.incidents[env.ids.incident].identity)
    ensures Aside(s, t, wanted.sessionId)
  {
    var v := t.incidents[env.ids.incident];
    SamePlaces(s, wanted.sessionId);
    IncidentPut(s.incidents, v.id, v, wanted.sessionId);
    if v.identity.runId != 0 { TargetPut(s.targets, v.identity.targetId, t.targets[v.identity.targetId],
        wanted.sessionId); }
    if v.identity.execId != 0 { ExecPut(s.execs, v.identity.execId, t.execs[v.identity.execId], wanted.sessionId); }
  }

  /** The lease under which an incident is recovered, and what it owns, are of its session. */
  lemma RecoveryLease(s: State, p: Incident)
    requires LeaseIdsOwned(s) && LeasesFiled(s) && IncidentOwned(s, p.identity) && p.identity.leaseId in s.leases
    ensures s.leases[p.identity.leaseId].identity.sessionId == p.identity.sessionId
            && s.leases[p.identity.leaseId].id == p.identity.leaseId
  {}

  lemma RecoverAside(s: State, t: State, id: Token, resource: Resource, strategy: Token, acknowledgement: Token,
      env: Env)
    requires Owns(s) && LeasesFiled(s) && Recovers(s, t, id, resource, strategy, acknowledgement, env)
    ensures Aside(s, t, IncidentSession(s, id))
  {
    var p, v := s.incidents[id], t.incidents[id];
    var x, lease := p.identity.sessionId, s.leases[p.identity.leaseId];
    RecoveryLease(s, p);
    SamePlaces(s, x);
    IncidentPut(s.incidents, id, v, x);
    if resource.TargetResource? {
      TargetPut(s.targets, v.identity.targetId, t.targets[v.identity.targetId], x);
    } else {
      AgentPut(s.agents, v.identity.agentId, t.agents[v.identity.agentId], x);
      LeasePut(s.leases, lease.id, t.leases[lease.id], x);
    }
  }

  lemma SealAside(s: State, t: State, id: Token, runId: Token, ids: seq<Token>, bundleId: Token, artifact: Artifact,
      env: Env)
    requires SealsRun(s, t, id, runId, ids, bundleId, artifact, env)
    ensures Aside(s, t, TargetSession(s, id))
  {
    var x := TargetSession(s, id);
    SamePlaces(s, x);
    forall i | i in s.incidents && s.incidents[i].identity.sessionId != x ensures t.incidents[i] == s.incidents[i] {
      assert i !in Normalized(ids);
    }
  }

  lemma IncidentAside(s: State, c: IncidentCommand, env: Env, t: State)
    requires Unused(s, env.ids) && Owns(s) && LeasesFiled(s) && IncidentsOwned(t) && DoesIncident(s, c, env, t)
    ensures Aside(s, t, IncidentSubject(s, c))
  {
    match c
    case CreateIncidentCommand(identity, evidence) => CreateIncidentAside(s, t, identity, evidence, env);
    case TransitionIncidentCommand(id, _, _, _, _, _) =>
      SamePlaces(s, IncidentSession(s, id));
      IncidentPut(s.incidents, id, t.incidents[id], IncidentSession(s, id));
    case RecoverIncidentCommand(id, _, resource, strategy, acknowledgement) =>
      RecoverAside(s, t, id, resource, strategy, acknowledgement, env);
    case SealRunIncidentsCommand(id, runId, bundleId, artifact, ids) =>
        SealAside(s, t, id, runId, ids, bundleId, artifact, env);
  }

  lemma BeginAside(s: State, t: State, leaseId: Token, kind: TerminationKind, reason: Token, key: Token, digest: Token,
      env: Env)
    requires Begins(s, t, leaseId, kind, reason, key, digest, env)
    ensures Aside(s, t, LeaseSession(s, leaseId))
  {
    SamePlaces(s, LeaseSession(s, leaseId));
    LeasePut(s.leases, leaseId, t.leases[leaseId], LeaseSession(s, leaseId));
  }

  lemma EndedTargetsAside(s: State, t: State, leaseId: Token)
    requires TargetsOwned(s) && leaseId in s.leases && EndsTargets(s, t, TargetIdsOf(s, leaseId))
    ensures TargetsAside(s.targets, t.targets, LeaseSession(s, leaseId))
  {
    forall id | id in s.targets
        && s.targets[id].identity.sessionId != LeaseSession(s, leaseId) ensures t.targets[id] == s.targets[id] {
      assert id !in TargetIdsOf(s, leaseId);
    }
  }

  lemma CompleteAside(s: State, t: State, leaseId: Token, key: Token, digest: Token, env: Env)
    requires Owns(s) && Completes(s, t, leaseId, key, digest, env)
    ensures Aside(s, t, LeaseSession(s, leaseId))
  {
    var p, x := s.leases[leaseId], LeaseSession(s, leaseId);
    SamePlaces(s, x);
    LeasePut(s.leases, leaseId, t.leases[leaseId], x);
    AgentPut(s.agents, p.identity.agentId, t.agents[p.identity.agentId], x);
    EndedTargetsAside(s, s.(targets := t.targets), leaseId);
  }

  lemma TerminationAside(s: State, c: TerminationCommand, env: Env, t: State)
    requires Owns(s) && DoesTermination(s, c, env, t)
    ensures Aside(s, t, LeaseSession(s, c.leaseId))
  {
    match c
    case BeginReleaseCommand(id, _, reason, key, digest) => BeginAside(s, t, id, ReleaseKind, reason, key, digest, env);
    case BeginExpiryCommand(id, _, key, digest) => BeginAside(s, t, id, ExpiryKind, EXPIRY_REASON, key, digest, env);
    case CompleteReleaseCommand(id, _, _, key, digest) => CompleteAside(s, t, id, key, digest, env);
    case CompleteTerminationCommand(id, _, key, digest) => CompleteAside(s, t, id, key, digest, env);
  }

  lemma DoesAside(s: State, c: Command, env: Env, t: State)
    requires Unused(s, env.ids) && Owns(s) && LeasesFiled(s) && IncidentsOwned(t) && Does(s, c, env, t)
    ensures Aside(s, t, Subject(s, c, env))
  {
    match c
    case Owner(c) => OwnerAside(s, c, env, t);
    case OnExec(c) => ExecAside(s, c, env, t);
    case OnTarget(c) => TargetAside(s, c, env, t);
    case OnRun(c) => RunAside(s, c, env, t);
    case OnIncident(c) => IncidentAside(s, c, env, t);
    case Terminating(c) => TerminationAside(s, c, env, t);
  }

  // ------------------------------------------------------------------------------- runs

  lemma AllowedUnused(a: Sys, m: Move)
    requires Allowed(a, m)
    ensures Unused(a.state, m.env.ids)
  {}

  lemma StepOwns(a: Sys, m: Move)
    requires Consistent(a) && Allowed(a, m)
    ensures Owns(a.state) && LeasesFiled(a.state) && IncidentsOwned(Step(a, m).state)
  {
    StepConsistent(a, m);
    InvOwns(a.state);
    InvOwns(Step(a, m).state);
    InvFiled(a.state);
  }

  lemma WrittenAside(s: State, c: Command, env: Env)
    requires Filed(s) && Unused(s, env.ids) && Owns(s) && LeasesFiled(s) && Handle(s, c, env).Written?
    requires IncidentsOwned(Folded(s, Handle(s, c, env).records))
    ensures Aside(s, Folded(s, Handle(s, c, env).records), Subject(s, c, env))
  {
    CommandsDo(s, c, env);
    DoesAside(s, c, env, Folded(s, Handle(s, c, env).records));
  }

  lemma WrittenIsolated(a: Sys, m: Move)
    requires Consistent(a) && Allowed(a, m) && Handle(a.state, m.command, m.env).Written?
    ensures Aside(a.state, Step(a, m).state, Subject(a.state, m.command, m.env))
  {
    StepFolds(a, m);
    AllowedUnused(a, m);
    StepOwns(a, m);
    InvFiled(a.state);
    WrittenAside(a.state, m.command, m.env);
  }

  /** A step changes the records of no session but the one its command is about. */
  lemma StepIsolated(a: Sys, m: Move)
    requires Consistent(a) && Allowed(a, m)
    ensures Aside(a.state, Step(a, m).state, Subject(a.state, m.command, m.env))
  {
    if Handle(a.state, m.command, m.env).Written? {
      WrittenIsolated(a, m);
    } else {
      RefusedStays(a, m);
      SamePlaces(a.state, Subject(a.state, m.command, m.env));
    }
  }

  /** No committed command of a run is about a session. */
  ghost predicate AllElsewhere(a: Sys, moves: seq<Move>, y: Token) {
    moves == [] ||
    (var front, last := moves[..|moves| - 1], moves[|moves| - 1];
     && AllElsewhere(a, front, y)
     && (Handle(After(a, front).state, last.command, last.env).Written? ==>
           Subject(After(a, front).state, last.command, last.env) != y))
  }

  lemma StepElsewhere(a: Sys, m: Move, y: Token)
    requires Consistent(a) && Allowed(a, m)
    requires Handle(a.state, m.command, m.env).Written? ==> Subject(a.state, m.command, m.env) != y
    ensures Slice(Step(a, m).state, y) == Slice(a.state, y)
  {
    if Handle(a.state, m.command, m.env).Written? {
      StepIsolated(a, m);
      AsideSlices(a.state, Step(a, m).state, Subject(a.state, m.command, m.env), y);
    } else {
      RefusedStays(a, m);
    }
  }

  /** Whatever is run on behalf of other sessions, every record of a session stays what it
      was: its lease, its agent workspace, its execs, its targets and its incidents. */
  lemma {:induction false} SessionsIsolated(a: Sys, moves: seq<Move>, y: Token)
    requires Consistent(a) && AllAllowed(a, moves) && AllElsewhere(a, moves, y)
    ensures Slice(After(a, moves).state, y) == Slice(a.state, y)
    decreases |moves|
  {
    if moves != [] {
      var front := moves[..|moves| - 1];
      SessionsIsolated(a, front, y);
      AfterConsistent(a, front);
      StepElsewhere(After(a, front), moves[|moves| - 1], y);
    }
  }
}

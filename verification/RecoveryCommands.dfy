/** Incident recovery, which retires a realization and opens the next one, commits
    only what replay accepts. */
module RecoveryCommands {
  import opened States
  import opened Records
  import opened Replay
  import opened Commands
  import opened Invariant
  import opened Landing
  import opened Edits
  import opened Owners
  import opened Chains
  import opened TargetCommands
  import opened TargetGrowth
  import opened AgentCommands
  import opened IncidentCommands

  // --------------------------------------------------------------------- targets

  lemma RecoverTargetWrites(s: State, v: Incident, lease: Lease, env: Env)
    requires v.identity.targetId in s.targets ==> Whole(s, s.targets[v.identity.targetId], env.stamp)
    requires RecoverTarget(s, v, lease, env).Ok?
    ensures v.identity.targetId in s.targets
    ensures var t := s.targets[v.identity.targetId];
            && t.identity.leaseId == lease.id && t.generations != []
            && (forall k | 0 <= k < |t.runs| ::
                t.runs[k].identity.generation == t.current ==> RunTerminal(t.runs[k].state))
            && RecoverTarget(s, v, lease, env).value == TargetRenewal(t, v.id, env.stamp)
  {
    CurrentIsLast(s.targets[v.identity.targetId]);
  }

  lemma RetiredWhole(m: State, t: Target, at: Time)
    requires TargetsInv(m) && t.id in m.targets && m.targets[t.id] == t && t.updatedAt <= at
    ensures Whole(m, t, at)
  {}

  lemma NextLands(m: State, t: Target, incidentId: Token, at: Time)
    requires Inv(m) && Whole(m, t, at) && Open(m.leases[t.identity.leaseId])
    requires TargetTerminal(t.generations[|t.generations| - 1].state)
    requires forall k | 0 <= k < |t.runs| :: t.runs[k].identity.generation == t.current ==> RunTerminal(t.runs[k].state)
    ensures var w := NextTargetGen(t, |t.generations| - 1, incidentId, at);
            Lands(m, Entry(TargetBody(w)), Put(m, TargetBody(w)))
  {
    NextGenGrows(m, t, t.generations, incidentId, at);
    assert t.(generations := t.generations) == t;
    GrowthLands(m, NextTargetGen(t, |t.generations| - 1, incidentId, at), at);
  }

  lemma AfterTrail(s: State, t: Target, at: Time)
    requires Sound(s, t, at) && t.generations != []
    ensures var g := |t.generations| - 1;
            var r := TargetAlong(t, g, TargetRetirement(t.generations[g].state), at);
            && |r.generations| == |t.generations| && TargetTerminal(r.generations[g].state)
            && r.runs == t.runs && r.current == t.current && r.identity == t.identity && r.updatedAt <= at
            && Put(s, TargetBody(r)).leases == s.leases
            && r.id in Put(s, TargetBody(r)).targets && Put(s, TargetBody(r)).targets[r.id] == r
  {
    CurrentIsLast(t);
    var g := |t.generations| - 1;
    AlongKeeps(t, g, TargetRetirement(t.generations[g].state), at);
  }

  function TargetRenewal(t: Target, incidentId: Token, at: Time): seq<Control>
    requires t.generations != []
  {
    var g := |t.generations| - 1;
    var path := TargetRetirement(t.generations[g].state);
    TargetTrail(t, g, path, at) + [Entry(TargetBody(NextTargetGen(TargetAlong(t, g, path, at), g, incidentId, at)))]
  }

  lemma RenewalReaches(s: State, t: Target, incidentId: Token, at: Time) returns (u: State)
    requires Inv(s) && Whole(s, t, at) && Open(s.leases[t.identity.leaseId]) && t.generations != []
    requires forall k | 0 <= k < |t.runs| :: t.runs[k].identity.generation == t.current ==> RunTerminal(t.runs[k].state)
    ensures Reaches(s, TargetRenewal(t, incidentId, at), u)
  {
    var g := |t.generations| - 1;
    var path := TargetRetirement(t.generations[g].state);
    var r := TargetAlong(t, g, path, at);
    TrailReaches(s, t, g, path, at);
    var m := Put(s, TargetBody(r));
    AfterTrail(s, t, at);
    RetiredWhole(m, r, at);
    NextLands(m, r, incidentId, at);
    var w := NextTargetGen(r, g, incidentId, at);
    u := Put(m, TargetBody(w));
    ReachesNext(s, TargetTrail(t, g, path, at), m, Entry(TargetBody(w)), u);
  }

  lemma RecoverTargetReaches(s: State, v: Incident, lease: Lease, env: Env) returns (u: State)
    requires Inv(s) && (v.identity.targetId in s.targets ==> Whole(s, s.targets[v.identity.targetId], env.stamp))
    requires lease.id in s.leases && s.leases[lease.id] == lease && Open(lease)
    requires RecoverTarget(s, v, lease, env).Ok?
    ensures Reaches(s, RecoverTarget(s, v, lease, env).value, u)
  {
    RecoverTargetWrites(s, v, lease, env);
    u := RenewalReaches(s, s.targets[v.identity.targetId], v.id, env.stamp);
  }

  // ---------------------------------------------------------------------- agents

  function Rolled(l: Lease, generation: nat, at: Time): Lease {
    l.(agentGeneration := generation, revision := l.revision + 1, updatedAt := at)
  }

  /** The agent workspace with its last realization retired. */
  function Retired(a: Agent, at: Time): Agent
    requires a.generations != []
  {
    AgentAlong(a, |a.generations| - 1, AgentRetirement(a.generations[|a.generations| - 1].state), at)
  }

  /** The agent workspace after the roll-over: the last generation renewed. */
  function NextOf(a: Agent, incidentId: Token, env: Env): Agent
    requires a.generations != []
  {
    NextAgentGen(a, |a.generations| - 1, incidentId, env)
  }

  function RollOver(a: Agent, l: Lease, incidentId: Token, env: Env): seq<Control>
    requires a.generations != []
  {
    [Entry(AgentBody(NextOf(a, incidentId, env))),
        Entry(LeaseBody(Rolled(l, NextOf(a, incidentId, env).current, env.stamp)))]
  }

  /** The records that retire an agent realization and open the next one. */
  function AgentRenewal(a: Agent, l: Lease, incidentId: Token, env: Env): seq<Control>
    requires a.generations != []
  {
    AgentTrail(a, |a.generations| - 1, AgentRetirement(a.generations[|a.generations| - 1].state), env.stamp) +
    RollOver(Retired(a, env.stamp), l, incidentId, env)
  }

  /** Every exec of an agent workspace runs under the lease of that workspace. */
  lemma ExecsOfAgent(s: State, a: Agent, at: Time)
    requires ExecsInv(s) && Kept(s, a, at)
    requires forall id | id in s.execs ::
               s.execs[id].identity.leaseId == LeaseOf(s, a) && s.execs[id].identity.agentGeneration == a.current ==>
                 ExecTerminal(s.execs[id].state)
    ensures ExecsDone(s, a.id, a.current)
  {}

  lemma RecoverAgentWrites(s: State, v: Incident, l: Lease, env: Env)
    requires l.identity.agentId in s.agents ==>
            Kept(s, s.agents[l.identity.agentId], env.stamp) && LeaseOf(s, s.agents[l.identity.agentId]) == l.id
    requires RecoverAgent(s, v, l, env).Ok?
    ensures l.identity.agentId in s.agents
    ensures var a := s.agents[l.identity.agentId];
            && a.generations != []
            && (forall id | id in s.execs ::
                  s.execs[id].identity.leaseId == LeaseOf(s, a) && s.execs[id].identity.agentGeneration == a.current ==>
                    ExecTerminal(s.execs[id].state))
            && RecoverAgent(s, v, l, env).value == AgentRenewal(a, l, v.id, env)
  {
    AgentCurrentIsLast(s.agents[l.identity.agentId]);
  }

  ghost predicate FreshWorkspace(a: Agent, workspaceId: Token) {
    workspaceId != 0 && forall k | 0 <= k < |a.generations| :: a.generations[k].identity.workspaceId != workspaceId
  }

  lemma NextAgentValid(a: Agent, incidentId: Token, env: Env)
    requires ValidAgent(a) && a.updatedAt <= env.stamp && FreshWorkspace(a, env.ids.workspace)
    ensures ValidAgent(NextOf(a, incidentId, env)) && AgentAdvances(a, NextOf(a, incidentId, env))
            && AgentKept(a, NextOf(a, incidentId, env))
  {}

  lemma RolledFits(x: Session, l: Lease, a: Agent, incidentId: Token, env: Env)
    requires Fits(x, l, a) && a.updatedAt <= env.stamp && l.updatedAt <= env.stamp && Open(l)
    requires FreshWorkspace(a, env.ids.workspace) && AgentTerminal(a.generations[|a.generations| - 1].state)
    ensures Fits(x, Rolled(l, NextOf(a, incidentId, env).current, env.stamp), NextOf(a, incidentId, env))
  {}

  /** An agent workspace about to be rolled over, with its session and lease. */
  ghost predicate Rollable(s: State, x: Session, l: Lease, a: Agent, env: Env) {
    && a.id in s.agents && s.agents[a.id] == a && x.id in s.sessions && s.sessions[x.id] == x && l.id in s.leases
    && s.leases[l.id] == l
    && Fits(x, l, a) && a.updatedAt <= env.stamp && l.updatedAt <= env.stamp && Open(l)
    && FreshWorkspace(a, env.ids.workspace) && AgentTerminal(a.generations[|a.generations| - 1].state)
  }

  lemma RolledOwners(s: State, x: Session, l: Lease, a: Agent, incidentId: Token, env: Env)
    requires Rollable(s, x, l, a, env)
    ensures var v, r := NextOf(a, incidentId, env), Rolled(l, NextOf(a, incidentId, env).current, env.stamp);
            && Fits(x, r, v) && SameOwners(s, x, r, v)
            && Owned(s, x, r, v) == Put(Put(s, AgentBody(v)), LeaseBody(r))
  {
    NextAgentValid(a, incidentId, env);
    RolledFits(x, l, a, incidentId, env);
  }

  lemma AppendLease(s: State, v: Lease)
    requires ValidLease(v) && LinkedLease(s, v)
    requires if v.id in s.leases then LeaseAdvances(s.leases[v.id], v)
            else v.revision == 1 && v.state.LeaseActive? && Open(v)
    ensures Appends(s, Entry(LeaseBody(v)), Put(s, LeaseBody(v)))
  {}

  /** Between the two records the lease lags one generation behind its agent, which
      replay tolerates. */
  lemma RolledAgentAppends(s: State, x: Session, l: Lease, a: Agent, incidentId: Token, env: Env)
    requires Rollable(s, x, l, a, env)
    ensures var v := NextOf(a, incidentId, env);
            && v.current == l.agentGeneration + 1
            && Appends(s, Entry(AgentBody(v)), Put(s, AgentBody(v)))
  {
    var v := NextOf(a, incidentId, env);
    NextAgentValid(a, incidentId, env);
    RolledFits(x, l, a, incidentId, env);
    assert LinkedAgent(s, v);
    AppendAgent(s, v);
  }

  lemma RolledLeaseLinked(s: State, x: Session, l: Lease, a: Agent, incidentId: Token, env: Env)
    requires Rollable(s, x, l, a, env)
    ensures var v, r := NextOf(a, incidentId, env), Rolled(l, NextOf(a, incidentId, env).current, env.stamp);
            && ValidLease(r) && LinkedLease(Put(s, AgentBody(v)), r) && LeaseAdvances(l, r)
            && Put(s, AgentBody(v)).leases == s.leases
  {}

  lemma RolledLeaseAppends(s: State, x: Session, l: Lease, a: Agent, incidentId: Token, env: Env)
    requires Rollable(s, x, l, a, env)
    ensures var v, r := NextOf(a, incidentId, env), Rolled(l, NextOf(a, incidentId, env).current, env.stamp);
            Appends(Put(s, AgentBody(v)), Entry(LeaseBody(r)), Put(Put(s, AgentBody(v)), LeaseBody(r)))
  {
    var v, r := NextOf(a, incidentId, env), Rolled(l, NextOf(a, incidentId, env).current, env.stamp);
    RolledLeaseLinked(s, x, l, a, incidentId, env);
    AppendLease(Put(s, AgentBody(v)), r);
  }

  lemma RolledReady(s: State, x: Session, l: Lease, a: Agent, incidentId: Token, env: Env)
    requires ExecsInv(s) && Rollable(s, x, l, a, env)
    ensures var v, r := NextOf(a, incidentId, env), Rolled(l, NextOf(a, incidentId, env).current, env.stamp);
            ExecsReady(s, r, v) && TargetsReady(s, r)
  {
    var v, r := NextOf(a, incidentId, env), Rolled(l, NextOf(a, incidentId, env).current, env.stamp);
    assert !Closed(r);
    forall id | id in s.execs
      ensures s.execs[id].identity.agentId == v.id && SettledAt(v, s.execs[id].identity.agentGeneration) ==>
              ExecTerminal(s.execs[id].state)
    {
      assert ExecInv(s, id);
    }
  }

  lemma RollReaches(s: State, x: Session, l: Lease, a: Agent, incidentId: Token, env: Env)
    requires Inv(s) && Rollable(s, x, l, a, env)
    ensures var v, r := NextOf(a, incidentId, env), Rolled(l, NextOf(a, incidentId, env).current, env.stamp);
            Reaches(s, RollOver(a, l, incidentId, env), Owned(s, x, r, v))
  {
    var v, r := NextOf(a, incidentId, env), Rolled(l, NextOf(a, incidentId, env).current, env.stamp);
    RolledAgentAppends(s, x, l, a, incidentId, env);
    RolledLeaseAppends(s, x, l, a, incidentId, env);
    RolledOwners(s, x, l, a, incidentId, env);
    RolledReady(s, x, l, a, incidentId, env);
    InvAfterOwners(s, x, r, v);
    ReachesPair(s, Entry(AgentBody(v)), Put(s, AgentBody(v)), Entry(LeaseBody(r)), Owned(s, x, r, v));
  }

  /** An agent workspace whose current realization can be replaced. */
  ghost predicate Renewable(s: State, x: Session, l: Lease, a: Agent, env: Env) {
    && Kept(s, a, env.stamp) && x == s.sessions[a.sessionId] && l == s.leases[LeaseOf(s, a)]
    && l.updatedAt <= env.stamp && Open(l) && FreshWorkspace(a, env.ids.workspace) && ExecsDone(s, a.id, a.current)
  }

  lemma RetiredFacts(a: Agent, at: Time, workspaceId: Token)
    requires ValidAgent(a) && a.updatedAt <= at && FreshWorkspace(a, workspaceId)
    ensures var r := Retired(a, at);
            && r.id == a.id && r.sessionId == a.sessionId && r.current == a.current
            && |r.generations| == |a.generations|
            && r.updatedAt <= at && AgentTerminal(r.generations[|r.generations| - 1].state)
            && FreshWorkspace(r, workspaceId)
  {
    var i := |a.generations| - 1;
    AgentAlongKeeps(a, i, AgentRetirement(a.generations[i].state), at);
  }

  lemma RetiredRollable(s: State, x: Session, l: Lease, a: Agent, env: Env)
    requires Renewable(s, x, l, a, env)
    requires var m := Put(s, AgentBody(Retired(a, env.stamp))); SessionsInv(m) && LeasesInv(m) && AgentsInv(m)
    ensures Rollable(Put(s, AgentBody(Retired(a, env.stamp))), x, l, Retired(a, env.stamp), env)
  {
    RetiredFacts(a, env.stamp, env.ids.workspace);
    TripleOf(Put(s, AgentBody(Retired(a, env.stamp))), l.id);
  }

  lemma RenewableRetirable(s: State, x: Session, l: Lease, a: Agent, env: Env)
    requires Renewable(s, x, l, a, env)
    ensures var i := |a.generations| - 1;
            i >= 0 && Retirable(s, a, i, AgentRetirement(a.generations[i].state), env.stamp)
  {}

  lemma RetiringReaches(s: State, a: Agent, i: nat, at: Time)
    requires Inv(s) && i == |a.generations| - 1 && Retirable(s, a, i, AgentRetirement(a.generations[i].state), at)
    ensures Reaches(s, AgentTrail(a, i, AgentRetirement(a.generations[i].state), at), Put(s, AgentBody(Retired(a, at))))
  {
    AgentTrailReaches(s, a, i, AgentRetirement(a.generations[i].state), at);
  }

  lemma RollFurther(s: State, trail: seq<Control>, m: State, x: Session, l: Lease, a: Agent, incidentId: Token,
      env: Env)
    returns (u: State)
    requires Reaches(s, trail, m) && Rollable(m, x, l, a, env)
    ensures Reaches(s, trail + RollOver(a, l, incidentId, env), u)
  {
    u := Owned(m, x, Rolled(l, NextOf(a, incidentId, env).current, env.stamp), NextOf(a, incidentId, env));
    RollReaches(m, x, l, a, incidentId, env);
    ReachesFurther(s, trail, m, RollOver(a, l, incidentId, env), u);
  }

  lemma AgentRenewalReaches(s: State, x: Session, l: Lease, a: Agent, incidentId: Token, env: Env) returns (u: State)
    requires Inv(s) && Renewable(s, x, l, a, env)
    ensures Reaches(s, AgentRenewal(a, l, incidentId, env), u)
  {
    var i := |a.generations| - 1;
    var trail := AgentTrail(a, i, AgentRetirement(a.generations[i].state), env.stamp);
    RenewableRetirable(s, x, l, a, env);
    RetiringReaches(s, a, i, env.stamp);
    RetiredRollable(s, x, l, a, env);
    u := RollFurther(s, trail, Put(s, AgentBody(Retired(a, env.stamp))), x, l, Retired(a, env.stamp), incidentId, env);
  }

  lemma RecoverAgentReaches(s: State, v: Incident, l: Lease, env: Env) returns (u: State)
    requires Inv(s) && l.id in s.leases && s.leases[l.id] == l && Open(l) && l.updatedAt <= env.stamp
    requires l.identity.agentId in s.agents && Kept(s, s.agents[l.identity.agentId], env.stamp)
            && LeaseOf(s, s.agents[l.identity.agentId]) == l.id
    requires FreshWorkspace(s.agents[l.identity.agentId], env.ids.workspace)
    requires RecoverAgent(s, v, l, env).Ok?
    ensures Reaches(s, RecoverAgent(s, v, l, env).value, u)
  {
    RecoverAgentWrites(s, v, l, env);
    var a := s.agents[l.identity.agentId];
    ExecsOfAgent(s, a, env.stamp);
    u := AgentRenewalReaches(s, s.sessions[a.sessionId], l, a, v.id, env);
  }

  // ------------------------------------------------------------------ the command

  function Recovered(s: State, v: Incident, resource: Resource, lease: Lease, env: Env): Result<seq<Control>> {
    if resource.TargetResource? then RecoverTarget(s, v, lease, env) else RecoverAgent(s, v, lease, env)
  }

  lemma RecoverIncidentWrites(s: State, id: Token, expected: nat, resource: Resource, strategy: Token,
      acknowledgement: Token, env: Env)
    requires id in s.incidents ==> SoundIncident(s, s.incidents[id], env.stamp)
    requires RecoverIncident(s, id, expected, resource, strategy, acknowledgement, env).Written?
    ensures id in s.incidents && s.incidents[id].identity.leaseId in s.leases
            && Open(s.leases[s.incidents[id].identity.leaseId])
    ensures var v := Recovering(s.incidents[id], resource, strategy, acknowledgement, env.stamp);
            var lease := s.leases[v.identity.leaseId];
            && IncidentFits(s, v)
            && Recovered(s, v, resource, lease, env).Ok?
            && RecoverIncident(s, id, expected, resource, strategy, acknowledgement, env).records ==
               [Entry(IncidentBody(v))] + Recovered(s, v, resource, lease, env).value
  {}

  lemma RecoveredFrame(s: State, v: Incident, resource: Resource, lease: Lease, env: Env)
    ensures Recovered(Put(s, IncidentBody(v)), v, resource, lease, env) == Recovered(s, v, resource, lease, env)
  {}

  /** What the invariant gives to a recovery under a lease. */
  ghost predicate Supports(s: State, v: Incident, lease: Lease, env: Env) {
    && lease.id in s.leases && s.leases[lease.id] == lease && Open(lease) && lease.updatedAt <= env.stamp
    && (v.identity.targetId in s.targets ==> Whole(s, s.targets[v.identity.targetId], env.stamp))
    && lease.identity.agentId in s.agents
    && (var a := s.agents[lease.identity.agentId];
        Kept(s, a, env.stamp) && LeaseOf(s, a) == lease.id && FreshWorkspace(a, env.ids.workspace))
  }

  lemma SupportsRecovery(s: State, v: Incident, leaseId: Token, env: Env)
    requires SessionsInv(s) && LeasesInv(s) && AgentsInv(s) && TargetsInv(s) && Before(s, env.stamp)
    requires leaseId in s.leases && Open(s.leases[leaseId])
    requires forall a | a in s.agents :: FreshWorkspace(s.agents[a], env.ids.workspace)
    ensures Supports(s, v, s.leases[leaseId], env)
  {
    TripleOf(s, leaseId);
    KeptAgent(s, s.leases[leaseId].identity.agentId, env.stamp);
    if v.identity.targetId in s.targets { WholeTarget(s, v.identity.targetId, env.stamp); }
  }

  lemma WholeFrame(s: State, v: Incident, t: Target, at: Time)
    requires Whole(s, t, at) && LinkedTarget(Put(s, IncidentBody(v)), t)
    ensures Whole(Put(s, IncidentBody(v)), t, at)
  {}

  lemma SupportsFrame(s: State, v: Incident, lease: Lease, env: Env)
    requires Supports(s, v, lease, env) && Keeps(s, Put(s, IncidentBody(v)))
    ensures Supports(Put(s, IncidentBody(v)), v, lease, env)
  {
    if v.identity.targetId in s.targets { TargetFrame(s, v, s.targets[v.identity.targetId], env.stamp); }
    AgentFrame(s, v, lease, env);
  }

  lemma TargetFrame(s: State, v: Incident, t: Target, at: Time)
    requires Whole(s, t, at) && Keeps(s, Put(s, IncidentBody(v)))
    ensures Whole(Put(s, IncidentBody(v)), t, at)
  {
    TargetLinksKept(s, Put(s, IncidentBody(v)), t);
    WholeFrame(s, v, t, at);
  }

  lemma AgentFrame(s: State, v: Incident, lease: Lease, env: Env)
    requires Supports(s, v, lease, env)
    ensures var m := Put(s, IncidentBody(v));
            && m.leases == s.leases && m.agents == s.agents && m.targets == s.targets
            && var a := s.agents[lease.identity.agentId];
            Kept(m, a, env.stamp) && LeaseOf(m, a) == lease.id
  {
    KeptFrame(s, v, s.agents[lease.identity.agentId], env.stamp);
  }

  lemma KeptFrame(s: State, v: Incident, a: Agent, at: Time)
    requires Kept(s, a, at)
    ensures var m := Put(s, IncidentBody(v)); Kept(m, a, at) && LeaseOf(m, a) == LeaseOf(s, a)
  {}

  lemma RecoveredReaches(s: State, v: Incident, resource: Resource, lease: Lease, env: Env) returns (u: State)
    requires Inv(s) && Supports(s, v, lease, env) && Recovered(s, v, resource, lease, env).Ok?
    ensures Reaches(s, Recovered(s, v, resource, lease, env).value, u)
  {
    if resource.TargetResource? {
      u := RecoverTargetReaches(s, v, lease, env);
    } else {
      u := RecoverAgentReaches(s, v, lease, env);
    }
  }

  lemma RecoveryReaches(s: State, v: Incident, resource: Resource, lease: Lease, env: Env) returns (u: State)
    requires Inv(s) && IncidentFits(s, v) && Supports(s, v, lease, env) && Recovered(s, v, resource, lease, env).Ok?
    ensures Reaches(s, [Entry(IncidentBody(v))] + Recovered(s, v, resource, lease, env).value, u)
  {
    var m := Put(s, IncidentBody(v));
    IncidentFitsLands(s, v);
    SupportsFrame(s, v, lease, env);
    RecoveredFrame(s, v, resource, lease, env);
    u := RecoveredReaches(m, v, resource, lease, env);
    ReachesAfter(s, Entry(IncidentBody(v)), m, Recovered(m, v, resource, lease, env).value, u);
  }

  lemma RecoverIncidentAgrees(s: State, id: Token, expected: nat, resource: Resource, strategy: Token,
      acknowledgement: Token, env: Env)
    requires Inv(s) && Before(s, env.stamp)
    requires forall a | a in s.agents :: FreshWorkspace(s.agents[a], env.ids.workspace)
    requires id in s.incidents ==> SoundIncident(s, s.incidents[id], env.stamp)
    ensures Agrees(s, RecoverIncident(s, id, expected, resource, strategy, acknowledgement, env))
  {
    if RecoverIncident(s, id, expected, resource, strategy, acknowledgement, env).Written? {
      RecoverIncidentWrites(s, id, expected, resource, strategy, acknowledgement, env);
      var v := Recovering(s.incidents[id], resource, strategy, acknowledgement, env.stamp);
      SupportsRecovery(s, v, v.identity.leaseId, env);
      var u := RecoveryReaches(s, v, resource, s.leases[v.identity.leaseId], env);
      ReachedAgreed(s, RecoverIncident(s, id, expected, resource, strategy, acknowledgement, env).records, u);
    }
  }
}

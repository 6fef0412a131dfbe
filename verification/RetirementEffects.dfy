/** What the commands that retire realizations, seal evidence, and begin or complete a
    termination have changed once they are committed. */
module RetirementEffects {
  import opened States
  import opened Records
  import opened Replay
  import opened Commands
  import opened Effects
  import opened TargetEffects
  import opened TargetGrowth
  import opened AgentCommands
  import opened CompletionCommands
  import opened SealCommands

  // -------------------------------------------------------------------------- trails

  lemma {:induction false} FoldedTargetTrail(s: State, t: Target, i: nat, path: seq<TargetState>, at: Time)
    requires i < |t.generations| && t.id in s.targets && s.targets[t.id] == t
    ensures Folded(s, TargetTrail(t, i, path, at)) == s.(targets := s.targets[t.id := TargetAlong(t, i, path, at)])
    decreases |path|
  {
    if path == [] {
      assert s.targets[t.id := t] == s.targets;
    } else {
      var next := TargetGenMoved(t, i, path[0], at);
      FoldedMore(s, [Entry(TargetBody(next))], TargetTrail(next, i, path[1..], at));
      FoldedOne(s, Entry(TargetBody(next)));
      FoldedTargetTrail(Put(s, TargetBody(next)), next, i, path[1..], at);
    }
  }

  lemma {:induction false} FoldedAgentTrail(s: State, a: Agent, i: nat, path: seq<AgentState>, at: Time)
    requires i < |a.generations| && a.id in s.agents && s.agents[a.id] == a
    ensures Folded(s, AgentTrail(a, i, path, at)) == s.(agents := s.agents[a.id := AgentAlong(a, i, path, at)])
    decreases |path|
  {
    if path == [] {
      assert s.agents[a.id := a] == s.agents;
    } else {
      var next := AgentGenMoved(a, i, path[0], at);
      FoldedMore(s, [Entry(AgentBody(next))], AgentTrail(next, i, path[1..], at));
      FoldedOne(s, Entry(AgentBody(next)));
      FoldedAgentTrail(Put(s, AgentBody(next)), next, i, path[1..], at);
    }
  }

  /** The last realization of a target has ended; everything else of the target stays. */
  ghost predicate TargetEnded(p: Target, v: Target) {
    && v == p.(generations := v.generations, revision := v.revision, updatedAt := v.updatedAt)
    && |p.generations| >= 1 && OnlyAt(p.generations, v.generations, |p.generations| - 1)
    && var g, h := p.generations[|p.generations| - 1], v.generations[|p.generations| - 1];
    && TargetTerminal(h.state) && h.identity == g.identity && h.binding == g.binding
    && (TargetTerminal(g.state) ==> v == p)
  }

  lemma {:induction false} TargetAlongFrame(t: Target, i: nat, path: seq<TargetState>, at: Time)
    requires i < |t.generations|
    ensures var v := TargetAlong(t, i, path, at);
            && v == t.(generations := v.generations, revision := v.revision, updatedAt := v.updatedAt)
            && OnlyAt(t.generations, v.generations, i)
            && v.generations[i].identity == t.generations[i].identity
            && v.generations[i].binding == t.generations[i].binding
            && v.generations[i].state == (if path == [] then t.generations[i].state else path[|path| - 1])
            && (path == [] ==> v == t)
    decreases |path|
  {
    if path != [] { TargetAlongFrame(TargetGenMoved(t, i, path[0], at), i, path[1..], at); }
  }

  lemma RetiredEnds(t: Target, at: Time)
    requires t.generations != []
    ensures var i := |t.generations| - 1;
            TargetEnded(t, TargetAlong(t, i, TargetRetirement(t.generations[i].state), at))
  {
    TargetAlongFrame(t, |t.generations| - 1, TargetRetirement(t.generations[|t.generations| - 1].state), at);
  }

  ghost predicate AgentEnded(p: Agent, v: Agent) {
    && v == p.(generations := v.generations, revision := v.revision, updatedAt := v.updatedAt)
    && |p.generations| >= 1 && OnlyAt(p.generations, v.generations, |p.generations| - 1)
    && var g, h := p.generations[|p.generations| - 1], v.generations[|p.generations| - 1];
    && AgentTerminal(h.state) && h.identity == g.identity && h.binding == g.binding
    && (AgentTerminal(g.state) ==> v == p)
  }

  lemma {:induction false} AgentAlongFrame(a: Agent, i: nat, path: seq<AgentState>, at: Time)
    requires i < |a.generations|
    ensures var v := AgentAlong(a, i, path, at);
            && v == a.(generations := v.generations, revision := v.revision, updatedAt := v.updatedAt)
            && OnlyAt(a.generations, v.generations, i)
            && v.generations[i].identity == a.generations[i].identity
            && v.generations[i].binding == a.generations[i].binding
            && v.generations[i].state == (if path == [] then a.generations[i].state else path[|path| - 1])
            && (path == [] ==> v == a)
    decreases |path|
  {
    if path != [] { AgentAlongFrame(AgentGenMoved(a, i, path[0], at), i, path[1..], at); }
  }

  lemma RetiredAgentEnds(a: Agent, at: Time)
    requires a.generations != []
    ensures var i := |a.generations| - 1; AgentEnded(a, AgentAlong(a, i, AgentRetirement(a.generations[i].state), at))
  {
    AgentAlongFrame(a, |a.generations| - 1, AgentRetirement(a.generations[|a.generations| - 1].state), at);
  }

  // ------------------------------------------------------------------------ recovery

  /** A rolled-over target: its last realization has ended and a next one follows it. */
  ghost predicate TargetRolled(p: Target, v: Target, incidentId: Token, at: Time) {
    && v == p.(current := v.current, generations := v.generations, revision := v.revision, updatedAt := at)
    && Succeeds(p, v, incidentId, at)
  }

  lemma NextRolls(t: Target, incidentId: Token, at: Time)
    requires Numbered(t)
    ensures var i := |t.generations| - 1;
            TargetRolled(t, NextTargetGen(TargetAlong(t, i, TargetRetirement(t.generations[i].state), at), i,
                incidentId, at), incidentId, at)
  {
    RetiredEnds(t, at);
  }

  ghost predicate RecoversTarget(s: State, t: State, v: Incident, lease: Lease, at: Time) {
    && v.identity.targetId in s.targets && OnlyTarget(s, t, v.identity.targetId)
    && var p := s.targets[v.identity.targetId];
    && p.identity.leaseId == lease.id && p.current == v.identity.targetGeneration
    && (forall k | 0 <= k < |p.runs| && p.runs[k].identity.generation == p.current ::
        RunTerminal(p.runs[k].state) && p.runs[k].bundle.id != 0)
    && TargetRolled(p, t.targets[v.identity.targetId], v.id, at)
  }

  lemma NumberedLast(t: Target)
    requires Numbered(t)
    ensures TargetGenIndex(t.generations, t.current) == |t.generations| - 1
  {
    assert t.generations[|t.generations| - 1].identity.generation == t.current;
  }

  lemma RecoverTargetDoes(s: State, v: Incident, lease: Lease, env: Env)
    requires TargetsFiled(s)
    requires RecoverTarget(s, v, lease, env).Ok?
    ensures RecoversTarget(s, Folded(s, RecoverTarget(s, v, lease, env).value), v, lease, env.stamp)
  {
    var t := s.targets[v.identity.targetId];
    NumberedLast(t);
    var i := |t.generations| - 1;
    var path := TargetRetirement(t.generations[i].state);
    var next := NextTargetGen(TargetAlong(t, i, path, env.stamp), i, v.id, env.stamp);
    NextRolls(t, v.id, env.stamp);
    FoldedRenewal(s, t, path, next, env.stamp);
  }

  lemma FoldedRenewal(s: State, t: Target, path: seq<TargetState>, next: Target, at: Time)
    requires t.generations != [] && t.id in s.targets && s.targets[t.id] == t && next.id == t.id
    ensures Folded(s, TargetTrail(t, |t.generations| - 1, path, at) + [Entry(TargetBody(next))]) ==
            s.(targets := s.targets[t.id := next])
  {
    var trail := TargetTrail(t, |t.generations| - 1, path, at);
    FoldedMore(s, trail, [Entry(TargetBody(next))]);
    FoldedTargetTrail(s, t, |t.generations| - 1, path, at);
    FoldedOne(Folded(s, trail), Entry(TargetBody(next)));
  }

  /** A rolled-over agent workspace: its last generation has ended and a next, unbound
      one follows it with the same provenance. */
  ghost predicate AgentRolled(p: Agent, v: Agent, incidentId: Token, env: Env) {
    && v == p.(current := v.current, generations := v.generations, revision := v.revision, updatedAt := env.stamp)
    && p.current == |p.generations| >= 1 && v.current == p.current + 1 == |v.generations|
    && (forall k | 0 <= k < p.current - 1 :: v.generations[k] == p.generations[k])
    && AgentTerminal(v.generations[p.current - 1].state)
    && v.generations[p.current - 1].identity == p.generations[p.current - 1].identity
    && var g := v.generations[p.current];
    && g.state.AgentProvisioning? && g.binding.Empty() && g.revision == 1
    && g.identity == AgentGenIdentity(p.current + 1, env.ids.workspace,
        p.generations[p.current - 1].identity.provenance, p.current, incidentId, env.stamp)
  }

  lemma NextAgentRolls(a: Agent, incidentId: Token, env: Env)
    requires AgentNumbered(a)
    ensures var i := |a.generations| - 1;
            AgentRolled(a, NextAgentGen(AgentAlong(a, i, AgentRetirement(a.generations[i].state), env.stamp), i,
                incidentId, env), incidentId, env)
  {
    RetiredAgentEnds(a, env.stamp);
  }

  /** The lease follows its agent workspace to the next generation. */
  ghost predicate RecoversAgent(s: State, t: State, v: Incident, lease: Lease, env: Env) {
    && v.identity.agentId in s.agents && v.identity.agentId in t.agents && lease.id in t.leases
    && var p, q, l := s.agents[v.identity.agentId], t.agents[v.identity.agentId], t.leases[lease.id];
    && t == s.(agents := s.agents[v.identity.agentId := q], leases := s.leases[lease.id := l])
    && p.current == v.identity.agentGeneration == lease.agentGeneration && AgentRolled(p, q, v.id, env)
    && l == lease.(agentGeneration := q.current, revision := lease.revision + 1, updatedAt := env.stamp)
    && (forall id | id in s.execs && s.execs[id].identity.leaseId == lease.id
        && s.execs[id].identity.agentGeneration == p.current ::
          ExecTerminal(s.execs[id].state))
  }

  lemma AgentNumberedLast(a: Agent)
    requires AgentNumbered(a)
    ensures AgentGenIndex(a.generations, a.current) == |a.generations| - 1
  {
    assert a.generations[|a.generations| - 1].identity.generation == a.current;
  }

  lemma FoldedAgentRenewal(s: State, a: Agent, path: seq<AgentState>, next: Agent, l: Lease, at: Time)
    requires a.generations != [] && a.id in s.agents && s.agents[a.id] == a && next.id == a.id
    ensures Folded(s, AgentTrail(a, |a.generations| - 1, path, at) + [Entry(AgentBody(next)), Entry(LeaseBody(l))]) ==
            s.(agents := s.agents[a.id := next], leases := s.leases[l.id := l])
  {
    var trail := AgentTrail(a, |a.generations| - 1, path, at);
    FoldedMore(s, trail, [Entry(AgentBody(next)), Entry(LeaseBody(l))]);
    FoldedAgentTrail(s, a, |a.generations| - 1, path, at);
    FoldedTwo(Folded(s, trail), Entry(AgentBody(next)), Entry(LeaseBody(l)));
  }

  lemma RecoverAgentDoes(s: State, v: Incident, lease: Lease, env: Env)
    requires AgentsFiled(s)
    requires RecoverAgent(s, v, lease, env).Ok?
    ensures RecoversAgent(s, Folded(s, RecoverAgent(s, v, lease, env).value), v, lease, env)
  {
    var a := s.agents[v.identity.agentId];
    AgentNumberedLast(a);
    var i := |a.generations| - 1;
    var path := AgentRetirement(a.generations[i].state);
    var next := NextAgentGen(AgentAlong(a, i, path, env.stamp), i, v.id, env);
    NextAgentRolls(a, v.id, env);
    FoldedAgentRenewal(s, a, path, next,
        lease.(agentGeneration := next.current, revision := lease.revision + 1, updatedAt := env.stamp), env.stamp);
  }

  /** A sealed incident records what is intended, and one resource is rolled over. */
  ghost predicate Recovers(s: State, t: State, id: Token, resource: Resource, strategy: Token, acknowledgement: Token,
      env: Env)
  {
    && id in s.incidents && id in t.incidents
    && var p, v := s.incidents[id], t.incidents[id];
    && p.state.IncidentEvidenceSealed? && strategy != 0 && acknowledgement != 0
    && v == p.(state := IncidentRecovering, revision := p.revision + 1, updatedAt := env.stamp,
               recoveryActions := p.recoveryActions + {Intended(resource, strategy)},
               acknowledgements := p.acknowledgements + {acknowledgement})
    && t.incidents == s.incidents[id := v]
    && p.identity.leaseId in s.leases && LeaseAdmits(s.leases[p.identity.leaseId], env.guard)
    && var m := s.(incidents := t.incidents);
    if resource.TargetResource? then RecoversTarget(m, t, v, s.leases[p.identity.leaseId], env.stamp)
    else RecoversAgent(m, t, v, s.leases[p.identity.leaseId], env)
  }

  lemma RecoverIncidentRecords(s: State, id: Token, expected: nat, resource: Resource, strategy: Token,
      acknowledgement: Token, env: Env)
    requires IncidentsFiled(s)
    requires RecoverIncident(s, id, expected, resource, strategy, acknowledgement, env).Written?
    ensures id in s.incidents && s.incidents[id].state.IncidentEvidenceSealed?
            && s.incidents[id].identity.leaseId in s.leases
    ensures strategy != 0 && acknowledgement != 0
    ensures LeaseAdmits(s.leases[s.incidents[id].identity.leaseId], env.guard)
    ensures var v := Recovering(s.incidents[id], resource, strategy, acknowledgement, env.stamp);
            var m := Put(s, IncidentBody(v));
            var lease := s.leases[v.identity.leaseId];
            && m.incidents == s.incidents[id := v]
            && var rest := if resource.TargetResource? then RecoverTarget(m, v, lease, env)
                else RecoverAgent(m, v, lease, env);
            && rest.Ok? && RecoverIncident(s, id, expected, resource, strategy, acknowledgement, env).records ==
                [Entry(IncidentBody(v))] + rest.value
  {}

  lemma RecoverIncidentDoes(s: State, id: Token, expected: nat, resource: Resource, strategy: Token,
      acknowledgement: Token, env: Env)
    requires TargetsFiled(s) && AgentsFiled(s) && IncidentsFiled(s)
    requires RecoverIncident(s, id, expected, resource, strategy, acknowledgement, env).Written?
    ensures Recovers(s, Folded(s, RecoverIncident(s, id, expected, resource, strategy, acknowledgement, env).records),
                     id, resource, strategy, acknowledgement, env)
  {
    RecoverIncidentRecords(s, id, expected, resource, strategy, acknowledgement, env);
    var v := Recovering(s.incidents[id], resource, strategy, acknowledgement, env.stamp);
    var m := Put(s, IncidentBody(v));
    var lease := s.leases[v.identity.leaseId];
    FoldedOne(s, Entry(IncidentBody(v)));
    if resource.TargetResource? {
      RecoverTargetDoes(m, v, lease, env);
      FoldedMore(s, [Entry(IncidentBody(v))], RecoverTarget(m, v, lease, env).value);
    } else {
      RecoverAgentDoes(m, v, lease, env);
      FoldedMore(s, [Entry(IncidentBody(v))], RecoverAgent(m, v, lease, env).value);
    }
  }

  // ------------------------------------------------------------------------- sealing

  /** An incident sealed with a bundle keeps its earlier evidence; a sealed one stays. */
  ghost predicate SealedFrom(p: Incident, v: Incident, bundleId: Token, artifact: Artifact, at: Time) {
    && v.state.IncidentEvidenceSealed? && v.evidence.bundleId == bundleId && artifact in v.evidence.artifacts
    && p.evidence.artifacts <= v.evidence.artifacts && (p.evidence.bundleId != 0 ==> p.evidence.bundleId == bundleId)
    && (if p.state.IncidentEvidenceSealed? then v == p
        else
          && p.state.IncidentOpen?
          && v == p.(state := IncidentEvidenceSealed, evidence := v.evidence, revision := p.revision + 1,
                     updatedAt := at))
  }

  ghost predicate Seals(s: State, t: State, ids: seq<Token>, bundleId: Token, artifact: Artifact, at: Time) {
    && t == s.(incidents := t.incidents) && t.incidents.Keys == s.incidents.Keys
    && (forall id | id in ids :: id in s.incidents)
    && forall id | id in s.incidents ::
         if id in ids then SealedFrom(s.incidents[id], t.incidents[id], bundleId, artifact, at)
             else t.incidents[id] == s.incidents[id]
  }

  lemma SealIncidentDoes(s: State, t: Target, r: Run, id: Token, bundleId: Token, artifact: Artifact, at: Time)
    requires bundleId != 0 && IncidentsFiled(s) && SealIncident(s, t, r, id, bundleId, artifact, at).Ok?
    ensures id in s.incidents
            && Seals(s, Folded(s, SealIncident(s, t, r, id, bundleId, artifact, at).value), [id], bundleId, artifact,
            at)
  {
    SealIncidentRecords(s, t, r, id, bundleId, artifact, at);
    var records := SealIncident(s, t, r, id, bundleId, artifact, at).value;
    OneSealed(s, id, if records == [] then s.incidents[id] else records[0].body.incident, bundleId, artifact, at);
    if records != [] { FoldedOne(s, records[0]); } else { assert s.incidents[id := s.incidents[id]] == s.incidents; }
  }

  lemma SealIncidentRecords(s: State, t: Target, r: Run, id: Token, bundleId: Token, artifact: Artifact, at: Time)
    requires bundleId != 0 && IncidentsFiled(s) && SealIncident(s, t, r, id, bundleId, artifact, at).Ok?
    ensures id in s.incidents
    ensures var records := SealIncident(s, t, r, id, bundleId, artifact, at).value;
            if records == [] then SealedFrom(s.incidents[id], s.incidents[id], bundleId, artifact, at)
            else
              && |records| == 1 && records[0].body.IncidentBody?
              && var v := records[0].body.incident;
              v.id == id && records == [Entry(IncidentBody(v))]
                  && SealedFrom(s.incidents[id], v, bundleId, artifact, at)
  {}

  lemma OneSealed(s: State, id: Token, v: Incident, bundleId: Token, artifact: Artifact, at: Time)
    requires id in s.incidents && SealedFrom(s.incidents[id], v, bundleId, artifact, at)
    ensures Seals(s, s.(incidents := s.incidents[id := v]), [id], bundleId, artifact, at)
  {}

  lemma SealsFurther(s: State, m: State, u: State, front: seq<Token>, last: Token, bundleId: Token, artifact: Artifact,
      at: Time)
    requires Seals(s, m, front, bundleId, artifact, at) && Seals(m, u, [last], bundleId, artifact, at) && last !in front
    ensures Seals(s, u, front + [last], bundleId, artifact, at)
  {
    assert last in [last];
    forall id | id in s.incidents
      ensures if id in front + [last] then SealedFrom(s.incidents[id], u.incidents[id], bundleId, artifact, at)
              else u.incidents[id] == s.incidents[id]
    {
      assert id in front + [last] <==> id in front || id == last;
      assert id in [last] <==> id == last;
    }
  }

  lemma {:induction false} SealAllDoes(s: State, t: Target, r: Run, ids: seq<Token>, bundleId: Token,
      artifact: Artifact, at: Time)
    requires bundleId != 0 && Distinct(ids) && IncidentsFiled(s)
    requires SealAll(s, t, r, ids, bundleId, artifact, at).Ok?
    ensures Seals(s, Folded(s, SealAll(s, t, r, ids, bundleId, artifact, at).value), ids, bundleId, artifact, at)
    decreases |ids|
  {
    if ids != [] {
      SealAllUnfolds(s, t, r, ids, bundleId, artifact, at);
      var front, last := ids[..|ids| - 1], ids[|ids| - 1];
      SealAllDoes(s, t, r, front, bundleId, artifact, at);
      var m := Folded(s, SealAll(s, t, r, front, bundleId, artifact, at).value);
      SealIncidentHere(s, m, t, r, front, last, bundleId, artifact, at);
      SealIncidentDoes(m, t, r, last, bundleId, artifact, at);
      FoldedMore(s, SealAll(s, t, r, front, bundleId, artifact, at).value,
          SealIncident(s, t, r, last, bundleId, artifact, at).value);
      SealsFurther(s, m, Folded(m, SealIncident(m, t, r, last, bundleId, artifact, at).value), front, last, bundleId,
          artifact, at);
    }
  }

  lemma SealIncidentHere(s: State, m: State, t: Target, r: Run, front: seq<Token>, last: Token, bundleId: Token,
      artifact: Artifact, at: Time)
    requires Seals(s, m, front, bundleId, artifact, at) && last !in front
            && SealIncident(s, t, r, last, bundleId, artifact, at).Ok?
    requires IncidentsFiled(s)
    ensures SealIncident(m, t, r, last, bundleId, artifact, at) == SealIncident(s, t, r, last, bundleId, artifact, at)
    ensures last in m.incidents && m.incidents[last].id == last
  {}

  ghost predicate OfRun(v: Incident, t: Target, r: Run) {
    && v.identity.sessionId == t.identity.sessionId && v.identity.leaseId == t.identity.leaseId
    && v.identity.targetId == t.id && v.identity.runId == r.id && v.identity.targetGeneration == r.identity.generation
  }

  lemma {:induction false} SealedAreOfRun(s: State, t: Target, r: Run, ids: seq<Token>, bundleId: Token,
      artifact: Artifact, at: Time)
    requires SealAll(s, t, r, ids, bundleId, artifact, at).Ok?
    ensures forall id | id in ids :: id in s.incidents && OfRun(s.incidents[id], t, r)
    decreases |ids|
  {
    if ids != [] {
      SealedAreOfRun(s, t, r, ids[..|ids| - 1], bundleId, artifact, at);
      assert ids == ids[..|ids| - 1] + [ids[|ids| - 1]];
    }
  }

  /** The listed incidents of a finished run are sealed with its bundle. */
  ghost predicate SealsRun(s: State, t: State, id: Token, runId: Token, ids: seq<Token>, bundleId: Token,
      artifact: Artifact, env: Env)
  {
    && Seals(s, t, Normalized(ids), bundleId, artifact, env.stamp) && id in s.targets
    && exists k ::
        0 <= k < |s.targets[id].runs|
        && SealedRun(s, s.targets[id], s.targets[id].runs[k], runId, ids, bundleId, artifact)
  }

  ghost predicate SealedRun(s: State, t: Target, r: Run, runId: Token, ids: seq<Token>, bundleId: Token,
      artifact: Artifact)
  {
    && r.id == runId && RunTerminal(r.state) && r.bundle == Bundle(bundleId, artifact.reference, artifact.digest)
    && forall i | i in ids :: i in s.incidents && OfRun(s.incidents[i], t, r)
  }

  lemma SealRunIncidentsDoes(s: State, id: Token, runId: Token, bundleId: Token, artifact: Artifact,
      incidentIds: seq<Token>, env: Env)
    requires IncidentsFiled(s)
    requires SealRunIncidents(s, id, runId, bundleId, artifact, incidentIds, env).Written?
    ensures SealsRun(s, Folded(s, SealRunIncidents(s, id, runId, bundleId, artifact, incidentIds, env).records),
                     id, runId, incidentIds, bundleId, artifact, env)
  {
    SealRunIncidentsWrites(s, id, runId, bundleId, artifact, incidentIds, env);
    var t := s.targets[id];
    var r := t.runs[RunIndex(t.runs, runId)];
    SealAllDoes(s, t, r, Normalized(incidentIds), bundleId, artifact, env.stamp);
    SealedAreOfRun(s, t, r, Normalized(incidentIds), bundleId, artifact, env.stamp);
    assert SealedRun(s, t, r, runId, incidentIds, bundleId, artifact);
  }

  // --------------------------------------------------------------------- termination

  /** The gate closes: the lease records who ended it and why, and the session follows. */
  ghost predicate Begins(s: State, t: State, leaseId: Token, kind: TerminationKind, reason: Token, key: Token,
      digest: Token, env: Env)
  {
    && leaseId in s.leases && leaseId in t.leases
    && var p, v := s.leases[leaseId], t.leases[leaseId];
    && p.identity.sessionId in s.sessions && p.identity.sessionId in t.sessions
    && var x, y := s.sessions[p.identity.sessionId], t.sessions[p.identity.sessionId];
    && t == s.(leases := s.leases[leaseId := v], sessions := s.sessions[p.identity.sessionId := y])
    && p.termination.Empty() && v.termination.InProgress()
    && (if kind.ReleaseKind? then LeaseAdmits(p, env.guard) && v.state.LeaseReleasing?
        else p.expiresAt <= env.guard && v.state == p.state)
    && v == p.(state := v.state, revision := p.revision + 1, updatedAt := env.stamp, termination := v.termination)
    && v.termination == Termination(kind, v.termination.state, reason, key, digest, v.revision, env.stamp, 0, 0, 0)
    && (v.termination.state.TerminationReleasing? <==> kind.ReleaseKind?)
    && SessionStep(x.state, SessionReleasing)
    && y == x.(state := SessionReleasing, revision := x.revision + 1, updatedAt := env.stamp)
  }

  lemma BeginTerminationDoes(s: State, leaseId: Token, kind: TerminationKind, expected: nat, reason: Token, key: Token,
      digest: Token, env: Env)
    requires !kind.NoKind? && LeasesFiled(s) && SessionsFiled(s)
    requires BeginTermination(s, leaseId, kind, expected, reason, key, digest, env).Ok?
    ensures Begins(s, Folded(s, BeginTermination(s, leaseId, kind, expected, reason, key, digest, env).value), leaseId,
            kind, reason, key, digest, env)
  {
    var records := BeginTermination(s, leaseId, kind, expected, reason, key, digest, env).value;
    FoldedTwo(s, records[0], records[1]);
  }

  /** The targets of a list have ended, and nothing else has changed. */
  ghost predicate EndsTargets(s: State, t: State, ids: seq<Token>) {
    && t == s.(targets := t.targets) && t.targets.Keys == s.targets.Keys
    && forall id | id in s.targets ::
        if id in ids then TargetEnded(s.targets[id], t.targets[id]) else t.targets[id] == s.targets[id]
  }

  lemma {:induction false} RetireTargetsDoes(s: State, ids: seq<Token>, at: Time)
    requires Distinct(ids)
            && (forall id | id in ids :: id in s.targets && s.targets[id].id == id && Numbered(s.targets[id]))
    requires RetireTargets(s, ids, at).Ok?
    ensures EndsTargets(s, Folded(s, RetireTargets(s, ids, at).value), ids)
    decreases |ids|
  {
    if ids != [] {
      var front, last := ids[..|ids| - 1], ids[|ids| - 1];
      LastApart(ids);
      RetireTargetsDoes(s, front, at);
      var records := RetireTargets(s, front, at).value;
      EndsOneMore(s, Folded(s, records), front, last, at);
      FoldedMore(s, records, RetireTarget(s.targets[last], at).value);
    }
  }

  lemma EndsOneMore(s: State, m: State, front: seq<Token>, last: Token, at: Time)
    requires EndsTargets(s, m, front) && last !in front
    requires last in s.targets && s.targets[last].id == last && Numbered(s.targets[last])
    requires RetireTarget(s.targets[last], at).Ok?
    ensures EndsTargets(s, Folded(m, RetireTarget(s.targets[last], at).value), front + [last])
  {
    var t := s.targets[last];
    var i := |t.generations| - 1;
    var path := TargetRetirement(t.generations[i].state);
    NumberedLast(t);
    RetiredEnds(t, at);
    FoldedTargetTrail(m, t, i, path, at);
    EndsFurther(s, m, TargetAlong(t, i, path, at), front, last);
  }

  lemma LastApart(ids: seq<Token>)
    requires ids != [] && Distinct(ids)
    ensures var front, last := ids[..|ids| - 1], ids[|ids| - 1];
            Distinct(front) && last !in front && ids == front + [last]
  {}

  lemma EndsFurther(s: State, m: State, v: Target, front: seq<Token>, last: Token)
    requires EndsTargets(s, m, front) && last in s.targets && last !in front && TargetEnded(s.targets[last], v)
    ensures EndsTargets(s, m.(targets := m.targets[last := v]), front + [last])
  {
    var u := m.(targets := m.targets[last := v]);
    forall id | id in s.targets
      ensures if id in front + [last] then TargetEnded(s.targets[id], u.targets[id]) else u.targets[id] == s.targets[id]
    {
      assert id in front + [last] <==> id in front || id == last;
    }
  }

  /** A drained termination completes: every target and the agent workspace of the lease
      have ended, lease and session are closed, and nothing else has changed. */
  ghost predicate Completes(s: State, t: State, leaseId: Token, key: Token, digest: Token, env: Env) {
    && leaseId in s.leases && leaseId in t.leases
    && var p, v := s.leases[leaseId], t.leases[leaseId];
    && p.termination.InProgress() && LeaseWorkDone(s, leaseId)
    && p.identity.sessionId in s.sessions && p.identity.sessionId in t.sessions && p.identity.agentId in s.agents
    && p.identity.agentId in t.agents
    && var x, y, a, b := s.sessions[p.identity.sessionId], t.sessions[p.identity.sessionId],
        s.agents[p.identity.agentId], t.agents[p.identity.agentId];
    && t == s.(leases := s.leases[leaseId := v], sessions := s.sessions[p.identity.sessionId := y],
               agents := s.agents[p.identity.agentId := b], targets := t.targets)
    && EndsTargets(s, s.(targets := t.targets), TargetIdsOf(s, leaseId)) && AgentEnded(a, b)
    && y == x.(state := SessionReleased, revision := x.revision + 1, updatedAt := env.stamp)
    && v == p.(state := v.state, revision := p.revision + 1, updatedAt := env.stamp, termination := v.termination)
    && v.termination == p.termination.(state := v.termination.state, completeKey := key, completeDigest := digest,
        completedAt := env.stamp)
    && (if p.termination.kind.ExpiryKind? then v.state.LeaseExpired? && v.termination.state.TerminationExpired?
        else v.state.LeaseReleased? && v.termination.state.TerminationReleased?)
  }

  lemma AgentAndClosing(m: State, a: Agent, path: seq<AgentState>, x: Session, l: Lease, key: Token, digest: Token,
      at: Time)
    requires a.generations != [] && a.id in m.agents && m.agents[a.id] == a
    ensures var y, v := SessionMoved(x, SessionReleased, at), Completed(l, key, digest, at);
            Folded(m, AgentTrail(a, |a.generations| - 1, path, at) + Closing(x, l, key, digest, at)) ==
            m.(agents := m.agents[a.id := AgentAlong(a, |a.generations| - 1, path, at)], leases := m.leases[l.id := v],
                sessions := m.sessions[x.id := y])
  {
    var trail := AgentTrail(a, |a.generations| - 1, path, at);
    FoldedMore(m, trail, Closing(x, l, key, digest, at));
    FoldedAgentTrail(m, a, |a.generations| - 1, path, at);
    FoldedTwo(Folded(m, trail), Closing(x, l, key, digest, at)[0], Closing(x, l, key, digest, at)[1]);
  }

  /** A drained termination with everything that its completion writes about. */
  ghost predicate MayComplete(s: State, leaseId: Token, at: Time) {
    && leaseId in s.leases && s.leases[leaseId].termination.InProgress() && LeaseWorkDone(s, leaseId)
    && var l := s.leases[leaseId];
    && l.identity.sessionId in s.sessions && l.identity.agentId in s.agents
    && s.agents[l.identity.agentId].generations != []
    && RetireTargets(s, TargetIdsOf(s, leaseId), at).Ok?
  }

  /** The targets, the agent workspace and the lease, one after the other. */
  ghost function Completion(s: State, leaseId: Token, key: Token, digest: Token, at: Time): seq<Control>
    requires MayComplete(s, leaseId, at)
  {
    var l := s.leases[leaseId];
    CompletionOf(s, TargetIdsOf(s, leaseId), s.agents[l.identity.agentId], s.sessions[l.identity.sessionId], l, key,
                 digest, at)
  }

  ghost function CompletionOf(s: State, ids: seq<Token>, a: Agent, x: Session, l: Lease, key: Token, digest: Token,
      at: Time): seq<Control>
    requires (forall id | id in ids :: id in s.targets) && RetireTargets(s, ids, at).Ok? && a.generations != []
  {
    var i := |a.generations| - 1;
    RetireTargets(s, ids, at).value +
    (AgentTrail(a, i, AgentRetirement(a.generations[i].state), at) + Closing(x, l, key, digest, at))
  }

  lemma CompletionRecords(s: State, leaseId: Token, expected: nat, key: Token, digest: Token, env: Env)
    requires TargetsFiled(s) && AgentsFiled(s) && CompleteTermination(s, leaseId, expected, key, digest, env).Ok?
    ensures MayComplete(s, leaseId, env.stamp)
    ensures CompleteTermination(s, leaseId, expected, key, digest, env).value ==
            Completion(s, leaseId, key, digest, env.stamp)
  {
    AgentNumberedLast(s.agents[s.leases[leaseId].identity.agentId]);
  }

  lemma ClosingCompletes(s: State, m: State, b: Agent, leaseId: Token, key: Token, digest: Token, env: Env)
    requires leaseId in s.leases && s.leases[leaseId].termination.InProgress() && LeaseWorkDone(s, leaseId)
    requires s.leases[leaseId].identity.sessionId in s.sessions && s.leases[leaseId].identity.agentId in s.agents
    requires EndsTargets(s, m, TargetIdsOf(s, leaseId)) && AgentEnded(s.agents[s.leases[leaseId].identity.agentId], b)
    ensures var l := s.leases[leaseId];
            var v, y := Completed(l, key, digest, env.stamp),
                SessionMoved(s.sessions[l.identity.sessionId], SessionReleased, env.stamp);
            var t := m.(agents := m.agents[l.identity.agentId := b], leases := m.leases[leaseId := v],
                        sessions := m.sessions[l.identity.sessionId := y]);
            Completes(s, t, leaseId, key, digest, env)
  {}

  lemma FoldedCompletion(s: State, ids: seq<Token>, a: Agent, x: Session, l: Lease, key: Token, digest: Token, at: Time)
    returns (m: State, b: Agent)
    requires TargetsFiled(s) && AgentsFiled(s) && Distinct(ids) && (forall id | id in ids :: id in s.targets)
            && RetireTargets(s, ids, at).Ok?
    requires a.generations != [] && a.id in s.agents && s.agents[a.id] == a
    ensures EndsTargets(s, m, ids) && AgentEnded(a, b)
    ensures Folded(s, CompletionOf(s, ids, a, x, l, key, digest, at)) ==
            m.(agents := m.agents[a.id := b], leases := m.leases[l.id := Completed(l, key, digest, at)],
               sessions := m.sessions[x.id := SessionMoved(x, SessionReleased, at)])
  {
    var path := AgentRetirement(a.generations[|a.generations| - 1].state);
    RetireTargetsDoes(s, ids, at);
    m, b := Folded(s, RetireTargets(s, ids, at).value), AgentAlong(a, |a.generations| - 1, path, at);
    FoldedMore(s, RetireTargets(s, ids, at).value,
        AgentTrail(a, |a.generations| - 1, path, at) + Closing(x, l, key, digest, at));
    AgentAndClosing(m, a, path, x, l, key, digest, at);
    RetiredAgentEnds(a, at);
  }

  lemma CompletionNames(s: State, leaseId: Token)
    requires AgentsFiled(s) && LeasesFiled(s) && SessionsFiled(s) && leaseId in s.leases
    requires s.leases[leaseId].identity.sessionId in s.sessions && s.leases[leaseId].identity.agentId in s.agents
    ensures var l := s.leases[leaseId];
            l.id == leaseId && s.sessions[l.identity.sessionId].id == l.identity.sessionId
                && s.agents[l.identity.agentId].id == l.identity.agentId
    ensures Distinct(TargetIdsOf(s, leaseId)) && forall id | id in TargetIdsOf(s, leaseId) :: id in s.targets
  {}

  lemma CompletionDoes(s: State, leaseId: Token, key: Token, digest: Token, env: Env)
    requires TargetsFiled(s) && AgentsFiled(s) && LeasesFiled(s) && SessionsFiled(s)
    requires MayComplete(s, leaseId, env.stamp)
    ensures Completes(s, Folded(s, Completion(s, leaseId, key, digest, env.stamp)), leaseId, key, digest, env)
  {
    CompletionNames(s, leaseId);
    var l := s.leases[leaseId];
    var m, b := FoldedCompletion(s, TargetIdsOf(s, leaseId), s.agents[l.identity.agentId],
                                 s.sessions[l.identity.sessionId], l, key, digest, env.stamp);
    ClosingCompletes(s, m, b, leaseId, key, digest, env);
  }

  lemma CompleteTerminationDoes(s: State, leaseId: Token, expected: nat, key: Token, digest: Token, env: Env)
    requires TargetsFiled(s) && AgentsFiled(s) && LeasesFiled(s) && SessionsFiled(s)
    requires CompleteTermination(s, leaseId, expected, key, digest, env).Ok?
    ensures Completes(s, Folded(s, CompleteTermination(s, leaseId, expected, key, digest, env).value), leaseId, key,
            digest, env)
  {
    CompletionRecords(s, leaseId, expected, key, digest, env);
    CompletionDoes(s, leaseId, key, digest, env);
  }
}

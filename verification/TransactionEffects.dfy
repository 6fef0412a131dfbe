/** What the commands that write several aggregates have changed once they are
    committed, and that they have changed nothing else. */
module TransactionEffects {
  import opened States
  import opened Records
  import opened Replay
  import opened Commands
  import opened Effects
  import opened TargetEffects
  import opened TargetGrowth
  import opened AgentCommands
  import opened CompletionCommands

  // -------------------------------------------------------------------- acquisition

  /** A leased session, its active lease and its agent workspace with one unbound
      generation, all new and naming each other. */
  ghost predicate Acquires(s: State, t: State, key: Token, owner: Token, provenance: Provenance, ttl: nat, env: Env) {
    var i := env.ids;
    && i.session in t.sessions && i.lease in t.leases && i.agent in t.agents
    && var x, l, a := t.sessions[i.session], t.leases[i.lease], t.agents[i.agent];
    && t == s.(sessions := s.sessions[i.session := x], leases := s.leases[i.lease := l],
        agents := s.agents[i.agent := a])
    && x.id == i.session && l.id == i.lease && a.id == i.agent && x.revision == 3 && l.revision == 1 && a.revision == 1
    && x.state.SessionLeased? && x.identity == SessionIdentity(owner, key, i.lease, i.agent, provenance, env.stamp)
    && l.identity == LeaseIdentity(i.session, i.agent, provenance, env.stamp) && LeaseAdmits(l, env.stamp)
    && l.expiresAt == env.stamp + ttl
    && a.sessionId == i.session && l.agentGeneration == a.current == |a.generations| == 1
    && var g := a.generations[0];
    && g.state.AgentProvisioning? && g.binding.Empty()
    && g.identity == AgentGenIdentity(1, i.workspace, provenance, 0, 0, env.stamp)
  }

  lemma FoldedFive(s: State, a: Control, b: Control, c: Control, d: Control, e: Control)
    ensures Folded(s, [a, b, c, d, e]) == Put(Put(Put(Put(Put(s, a.body), b.body), c.body), d.body), e.body)
  {
    assert [a, b, c, d, e] == [a, b] + ([c, d] + [e]);
    FoldedMore(s, [a, b], [c, d] + [e]);
    FoldedTwo(s, a, b);
    var m := Put(Put(s, a.body), b.body);
    FoldedMore(m, [c, d], [e]);
    FoldedTwo(m, c, d);
    FoldedOne(Put(Put(m, c.body), d.body), e);
  }

  lemma AcquireDoes(s: State, key: Token, owner: Token, provenance: Provenance, ttl: nat, env: Env)
    requires Acquire(s, key, owner, provenance, ttl, env).Written?
    ensures Acquires(s, Folded(s, Acquire(s, key, owner, provenance, ttl, env).records), key, owner, provenance, ttl,
            env)
  {
    var r := Acquire(s, key, owner, provenance, ttl, env).records;
    FoldedFive(s, r[0], r[1], r[2], r[3], r[4]);
  }

  // ---------------------------------------------------------------------- incidents

  /** The run with an identity takes a link to an incident; nothing else of the target changes. */
  ghost predicate RunLinked(p: Target, q: Target, runId: Token, incidentId: Token, at: Time) {
    && NextTarget(p, q, at) && SameGenerations(p, q) && q.operations == p.operations && |q.runs| == |p.runs|
    && (exists k :: 0 <= k < |p.runs| && p.runs[k].id == runId)
    && forall k | 0 <= k < |p.runs| ::
         if p.runs[k].id != runId then q.runs[k] == p.runs[k]
         else
           && q.runs[k] == p.runs[k].(incidentIds := q.runs[k].incidentIds)
           && United(p.runs[k].incidentIds, [incidentId], q.runs[k].incidentIds)
  }

  /** The run and the exec named by an incident, if any, take a link to it. */
  ghost predicate LinksRun(before: map<Token, Target>, after: map<Token, Target>, v: Incident, at: Time) {
    var id := v.identity.targetId;
    if v.identity.runId == 0 then after == before
    else
      && id in before && id in after && after == before[id := after[id]]
      && RunLinked(before[id], after[id], v.identity.runId, v.id, at)
  }

  ghost predicate LinksExec(before: map<Token, Exec>, after: map<Token, Exec>, v: Incident, at: Time) {
    var id := v.identity.execId;
    if id == 0 then after == before
    else
      && id in before && id in after && after == before[id := after[id]]
      && var p, q := before[id], after[id];
      && q == p.(incidentIds := q.incidentIds, revision := p.revision + 1, updatedAt := at)
      && United(p.incidentIds, [v.id], q.incidentIds)
  }

  ghost predicate CreatesIncident(s: State, t: State, wanted: IncidentIdentity, evidence: Evidence, env: Env) {
    var id := env.ids.incident;
    && id in t.incidents
    && var v := t.incidents[id];
    && v == Incident(id, wanted.(occurredAt := env.stamp), evidence, {}, {}, IncidentOpen, 1, env.stamp)
    && t == s.(incidents := s.incidents[id := v], targets := t.targets, execs := t.execs)
    && LinksRun(s.targets, t.targets, v, env.stamp) && LinksExec(s.execs, t.execs, v, env.stamp)
  }

  /** What an incident names is there to be linked. */
  ghost predicate Linkable(s: State, v: Incident) {
    && (v.identity.runId != 0 ==>
          && v.identity.targetId in s.targets && s.targets[v.identity.targetId].id == v.identity.targetId
          && Numbered(s.targets[v.identity.targetId]) && HasRun(s.targets[v.identity.targetId].runs, v.identity.runId))
    && (v.identity.execId != 0 ==> v.identity.execId in s.execs && s.execs[v.identity.execId].id == v.identity.execId)
  }

  lemma WithLink(p: Target, runId: Token, incidentId: Token, at: Time)
    requires DistinctRuns(p.runs) && HasRun(p.runs, runId)
    ensures var k := RunIndex(p.runs, runId);
            RunLinked(p, WithRun(p, k, p.runs[k].(incidentIds := Merged(p.runs[k].incidentIds, [incidentId])), at),
                runId, incidentId, at)
  {}

  lemma RunLinkDoes(s: State, v: Incident, at: Time)
    requires Linkable(s, v)
    ensures var t := Folded(s, RunLink(s, v, at));
            LinksRun(s.targets, t.targets, v, at) && t == s.(targets := t.targets)
  {
    if v.identity.runId != 0 {
      WithLink(s.targets[v.identity.targetId], v.identity.runId, v.id, at);
      FoldedOne(s, RunLink(s, v, at)[0]);
    }
  }

  lemma ExecLinkDoes(s: State, v: Incident, at: Time)
    requires Linkable(s, v)
    ensures var t := Folded(s, ExecLink(s, v, at)); LinksExec(s.execs, t.execs, v, at) && t == s.(execs := t.execs)
  {
    if v.identity.execId != 0 { FoldedOne(s, ExecLink(s, v, at)[0]); }
  }

  lemma CreateIncidentRecords(s: State, wanted: IncidentIdentity, evidence: Evidence, env: Env)
    requires TargetsFiled(s) && ExecsFiled(s) && CreateIncident(s, wanted, evidence, env).Written?
    ensures var v := Incident(env.ids.incident, wanted.(occurredAt := env.stamp), evidence, {}, {}, IncidentOpen, 1,
            env.stamp);
            && Linkable(s, v)
            && CreateIncident(s, wanted, evidence, env).records ==
               [Entry(IncidentBody(v))] + RunLink(s, v, env.stamp) + ExecLink(s, v, env.stamp)
  {}

  lemma FoldedThree(s: State, c: Control, first: seq<Control>, rest: seq<Control>)
    ensures Folded(s, [c] + first + rest) == Folded(Folded(Put(s, c.body), first), rest)
  {
    FoldedMore(s, [c] + first, rest);
    FoldedMore(s, [c], first);
    FoldedOne(s, c);
  }

  lemma LinkingDoes(s: State, v: Incident, at: Time)
    requires Linkable(s, v)
    ensures var t := Folded(s, [Entry(IncidentBody(v))] + RunLink(s, v, at) + ExecLink(s, v, at));
            && t == s.(incidents := s.incidents[v.id := v], targets := t.targets, execs := t.execs)
            && LinksRun(s.targets, t.targets, v, at) && LinksExec(s.execs, t.execs, v, at)
  {
    FoldedThree(s, Entry(IncidentBody(v)), RunLink(s, v, at), ExecLink(s, v, at));
    var w := LinkingRun(s, v, at);
    ExecLinkDoes(w, v, at);
  }

  lemma LinkingRun(s: State, v: Incident, at: Time) returns (w: State)
    requires Linkable(s, v)
    ensures w == Folded(Put(s, IncidentBody(v)), RunLink(s, v, at))
    ensures w == s.(incidents := s.incidents[v.id := v], targets := w.targets) && LinksRun(s.targets, w.targets, v, at)
    ensures Linkable(w, v) && ExecLink(w, v, at) == ExecLink(s, v, at)
  {
    var m := Put(s, IncidentBody(v));
    w := Folded(m, RunLink(m, v, at));
    RunLinkDoes(m, v, at);
    LinksApart(s, m, w, v, at);
  }

  lemma LinksApart(s: State, m: State, w: State, v: Incident, at: Time)
    requires Linkable(s, v) && m.targets == s.targets && m.execs == s.execs && w == m.(targets := w.targets)
    requires LinksRun(m.targets, w.targets, v, at)
    ensures Linkable(w, v) && RunLink(m, v, at) == RunLink(s, v, at) && ExecLink(w, v, at) == ExecLink(s, v, at)
  {}

  lemma CreateIncidentDoes(s: State, wanted: IncidentIdentity, evidence: Evidence, env: Env)
    requires TargetsFiled(s) && ExecsFiled(s) && CreateIncident(s, wanted, evidence, env).Written?
    ensures CreatesIncident(s, Folded(s, CreateIncident(s, wanted, evidence, env).records), wanted, evidence, env)
  {
    CreateIncidentRecords(s, wanted, evidence, env);
    LinkingDoes(s, Incident(env.ids.incident, wanted.(occurredAt := env.stamp), evidence, {}, {}, IncidentOpen, 1,
        env.stamp), env.stamp);
  }

  /** An incident moves on with its evidence untouched. Out of recovery it is resolved
      only by a completion that keeps every action and acknowledgement, and holds the
      one physical recovery that was intended. */
  ghost predicate MovesIncident(s: State, t: State, id: Token, state: IncidentState, actions: set<Action>,
      acknowledgements: set<Token>, completion: bool, env: Env)
  {
    && id in s.incidents && OnlyIncident(s, t, id)
    && var p, v := s.incidents[id], t.incidents[id];
    && IncidentStep(p.state, state) && !state.IncidentRecovering?
    && v == p.(state := state, revision := p.revision + 1, updatedAt := env.stamp, recoveryActions := actions,
        acknowledgements := acknowledgements)
    && (state.IncidentEvidenceSealed? ==> v.evidence.artifacts != [] || v.evidence.bundleId != 0)
    && (completion <==> p.state.IncidentRecovering? && state.IncidentResolved?)
    && (completion ==>
          && p.recoveryActions <= actions && p.acknowledgements <= acknowledgements
          && exists resource, strategy ::
               && strategy != 0 && Intended(resource, strategy) in p.recoveryActions
               && Physical(resource, strategy) in actions
               && forall a | a in p.recoveryActions && a.Intended? && a.strategy != 0 ::
                   a == Intended(resource, strategy))
  }

  lemma OneCounterpart(actions: set<Action>)
    requires |PhysicalCounterparts(actions)| == 1
    ensures exists resource, strategy ::
              && strategy != 0 && Intended(resource, strategy) in actions
              && PhysicalCounterparts(actions) == {Physical(resource, strategy)}
              && forall a | a in actions && a.Intended? && a.strategy != 0 :: a == Intended(resource, strategy)
  {
    var p :| p in PhysicalCounterparts(actions);
    var a :| a in actions && a.Intended? && a.strategy != 0 && p == Physical(a.resource, a.strategy);
    forall b | b in actions && b.Intended? && b.strategy != 0 ensures b == a {
      var q := Physical(b.resource, b.strategy);
      assert q in PhysicalCounterparts(actions);
      OneOfOne(PhysicalCounterparts(actions), p, q);
    }
    assert PhysicalCounterparts(actions) == {Physical(a.resource, a.strategy)};
    assert Intended(a.resource, a.strategy) in actions;
  }

  lemma OneOfOne<T>(xs: set<T>, x: T, y: T)
    requires |xs| == 1 && x in xs && y in xs
    ensures x == y
  {
    assert |xs - {x}| == 0;
  }

  lemma TransitionIncidentDoes(s: State, id: Token, expected: nat, state: IncidentState, actions: set<Action>,
      acknowledgements: set<Token>, completion: bool, env: Env)
    requires IncidentsFiled(s)
    requires TransitionIncident(s, id, expected, state, actions, acknowledgements, completion, env).Written?
    ensures MovesIncident(s,
            Folded(s, TransitionIncident(s, id, expected, state, actions, acknowledgements, completion, env).records),
                          id, state, actions, acknowledgements, completion, env)
  {
    FoldedOne(s, TransitionIncident(s, id, expected, state, actions, acknowledgements, completion, env).records[0]);
    if completion { OneCounterpart(s.incidents[id].recoveryActions); }
  }
}

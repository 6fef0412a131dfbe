/** What a committed command has changed in the projection, and that it has changed
    nothing else. Elements are named by identity, not by how they are found. */
module Effects {
  import opened States
  import opened Records
  import opened Replay
  import opened Commands
  import opened Invariant

  /** The projection once the records have been put in order. */
  function Folded(s: State, records: seq<Control>): State {
    if records == [] then s else Put(Folded(s, records[..|records| - 1]), records[|records| - 1].body)
  }

  /** A journal that replay accepts leads where its records put it. */
  lemma {:induction false} ReplayedIsFolded(s: State, records: seq<Control>)
    requires Replayed(s, records).Some?
    ensures Replayed(s, records).value == Folded(s, records)
    decreases |records|
  {
    if records != [] { ReplayedIsFolded(s, records[..|records| - 1]); }
  }

  lemma FoldedOne(s: State, c: Control)
    ensures Folded(s, [c]) == Put(s, c.body)
  {
    assert [c][..0] == [];
  }

  lemma {:induction false} FoldedMore(s: State, first: seq<Control>, rest: seq<Control>)
    ensures Folded(s, first + rest) == Folded(Folded(s, first), rest)
    decreases |rest|
  {
    if rest == [] {
      assert first + rest == first;
    } else {
      FoldedMore(s, first, rest[..|rest| - 1]);
      assert (first + rest)[..|first + rest| - 1] == first + rest[..|rest| - 1];
    }
  }

  lemma FoldedTwo(s: State, c: Control, d: Control)
    ensures Folded(s, [c, d]) == Put(Put(s, c.body), d.body)
  {
    assert [c, d] == [c] + [d];
    FoldedMore(s, [c], [d]);
    FoldedOne(s, c);
    FoldedOne(Put(s, c.body), d);
  }

  // ------------------------------------------------------------- what is presumed

  ghost predicate SessionsFiled(s: State) { forall id | id in s.sessions :: s.sessions[id].id == id }
  ghost predicate LeasesFiled(s: State) { forall id | id in s.leases :: s.leases[id].id == id }
  ghost predicate ExecsFiled(s: State) { forall id | id in s.execs :: s.execs[id].id == id }
  ghost predicate IncidentsFiled(s: State) { forall id | id in s.incidents :: s.incidents[id].id == id }

  /** Agent generations are numbered up to the current one. */
  ghost predicate AgentNumbered(a: Agent) {
    1 <= a.current == |a.generations| && forall k | 0 <= k < |a.generations| ::
        a.generations[k].identity.generation == k + 1
  }

  ghost predicate AgentsFiled(s: State) {
    forall id | id in s.agents :: s.agents[id].id == id && AgentNumbered(s.agents[id])
  }

  // ------------------------------------------------------------------ what stays

  ghost predicate OnlyLease(s: State, t: State, id: Token) {
    id in t.leases && t == s.(leases := s.leases[id := t.leases[id]])
  }

  ghost predicate OnlyAgent(s: State, t: State, id: Token) {
    id in t.agents && t == s.(agents := s.agents[id := t.agents[id]])
  }

  ghost predicate OnlyExec(s: State, t: State, id: Token) {
    id in t.execs && t == s.(execs := s.execs[id := t.execs[id]])
  }

  ghost predicate OnlyTarget(s: State, t: State, id: Token) {
    id in t.targets && t == s.(targets := s.targets[id := t.targets[id]])
  }

  ghost predicate OnlyIncident(s: State, t: State, id: Token) {
    id in t.incidents && t == s.(incidents := s.incidents[id := t.incidents[id]])
  }

  /** The next revision of a target, of which only the listed parts may differ. */
  ghost predicate NextTarget(p: Target, v: Target, at: Time) {
    v == p.(current := v.current, generations := v.generations, runs := v.runs, operations := v.operations,
            revision := p.revision + 1, updatedAt := at)
  }

  ghost predicate SameGenerations(p: Target, v: Target) { v.current == p.current && v.generations == p.generations }

  /** The lists agree everywhere but at one position. */
  ghost predicate OnlyAt<T>(xs: seq<T>, ys: seq<T>, k: nat) {
    k < |xs| == |ys| && forall j | 0 <= j < |xs| && j != k :: ys[j] == xs[j]
  }

  ghost predicate OneMore<T>(xs: seq<T>, ys: seq<T>) { |ys| == |xs| + 1 && ys[..|xs|] == xs }

  ghost predicate United(xs: seq<Token>, more: seq<Token>, ys: seq<Token>) {
    Distinct(ys) && forall y :: y in ys <==> y in xs || y in more
  }

  // ------------------------------------------------------------ sessions and leases

  /** A longer lease, and nothing else. */
  ghost predicate Renews(s: State, t: State, leaseId: Token, ttl: nat, env: Env) {
    && leaseId in s.leases && OnlyLease(s, t, leaseId)
    && var p, v := s.leases[leaseId], t.leases[leaseId];
    && LeaseAdmits(p, env.guard) && p.expiresAt < v.expiresAt == env.stamp + ttl
    && v == p.(expiresAt := v.expiresAt, revision := p.revision + 1, updatedAt := env.stamp)
  }

  lemma RenewLeaseDoes(s: State, leaseId: Token, expected: nat, ttl: nat, env: Env)
    requires LeasesFiled(s)
    requires RenewLease(s, leaseId, expected, ttl, env).Written?
    ensures Renews(s, Folded(s, RenewLease(s, leaseId, expected, ttl, env).records), leaseId, ttl, env)
  {
    FoldedOne(s, RenewLease(s, leaseId, expected, ttl, env).records[0]);
  }

  /** One generation of an agent workspace, named by its number, is replaced. */
  ghost predicate AgentGenReplaced(s: State, t: State, id: Token, generation: nat, at: Time) {
    && id in s.agents && OnlyAgent(s, t, id)
    && var p, v := s.agents[id], t.agents[id];
    && v == p.(generations := v.generations, revision := p.revision + 1, updatedAt := at)
    && 1 <= generation && OnlyAt(p.generations, v.generations, generation - 1)
    && var g, h := p.generations[generation - 1], v.generations[generation - 1];
    && h == g.(binding := h.binding, state := h.state, revision := g.revision + 1, updatedAt := at)
  }

  lemma MovedIsReplaced(s: State, a: Agent, generation: nat, state: AgentState, at: Time)
    requires a.id in s.agents && s.agents[a.id] == a && 1 <= generation <= |a.generations|
    ensures AgentGenReplaced(s, Put(s, AgentBody(AgentGenMoved(a, generation - 1, state, at))), a.id, generation, at)
  {}

  ghost predicate MovesAgent(s: State, t: State, id: Token, generation: nat, state: AgentState, env: Env) {
    && AgentGenReplaced(s, t, id, generation, env.stamp)
    && var g, h := s.agents[id].generations[generation - 1], t.agents[id].generations[generation - 1];
    && AgentStep(g.state, state) && h.state == state && h.binding == g.binding
    && (state.AgentQuiescing? ==> AgentIdle(s, id, generation))
  }

  lemma TransitionAgentDoes(s: State, id: Token, generation: nat, expected: nat, state: AgentState, env: Env)
    requires AgentsFiled(s)
    requires TransitionAgent(s, id, generation, expected, state, env).Written?
    ensures MovesAgent(s, Folded(s, TransitionAgent(s, id, generation, expected, state, env).records), id, generation,
            state, env)
  {
    FoldedOne(s, TransitionAgent(s, id, generation, expected, state, env).records[0]);
  }

  /** The current, still unbound generation is bound while the lease accepts work. */
  ghost predicate BindsAgent(s: State, t: State, id: Token, generation: nat, binding: AgentBinding, env: Env) {
    && AgentGenReplaced(s, t, id, generation, env.stamp)
    && var g, h := s.agents[id].generations[generation - 1], t.agents[id].generations[generation - 1];
    && generation == s.agents[id].current && g.state.AgentProvisioning? && g.binding.Empty()
    && h.state == g.state && h.binding == binding && binding.Complete()
    && s.agents[id].sessionId in s.sessions
    && var leaseId := s.sessions[s.agents[id].sessionId].identity.leaseId;
    leaseId in s.leases && LeaseAdmits(s.leases[leaseId], env.guard)
  }

  lemma BindAgentPlanDoes(s: State, id: Token, generation: nat, expected: nat, binding: AgentBinding, env: Env)
    requires AgentsFiled(s)
    requires BindAgentPlan(s, id, generation, expected, binding, env).Written?
    ensures BindsAgent(s, Folded(s, BindAgentPlan(s, id, generation, expected, binding, env).records), id, generation,
            binding, env)
  {
    FoldedOne(s, BindAgentPlan(s, id, generation, expected, binding, env).records[0]);
  }

  // --------------------------------------------------------------------------- execs

  ghost predicate AcceptsExecs(g: AgentGen) { g.state.AgentReady? || g.state.AgentRunning? }

  /** A requested exec under an admitting lease, on the generation the lease names,
      which accepts work. */
  ghost predicate CreatesExec(s: State, t: State, leaseId: Token, command: Token, env: Env) {
    && leaseId in s.leases && OnlyExec(s, t, env.ids.exec)
    && var l, e := s.leases[leaseId], t.execs[env.ids.exec];
    && LeaseAdmits(l, env.guard) && l.identity.agentId in s.agents
    && var a := s.agents[l.identity.agentId];
    && 1 <= l.agentGeneration == a.current <= |a.generations| && AcceptsExecs(a.generations[a.current - 1])
    && e.id == env.ids.exec && e.state.ExecRequested? && e.revision == 1 && e.incidentIds == []
    && e.identity == ExecIdentity(l.identity.sessionId, leaseId, l.identity.agentId, l.agentGeneration, command,
        env.stamp)
  }

  lemma CreateExecDoes(s: State, leaseId: Token, command: Token, env: Env)
    requires AgentsFiled(s)
    requires CreateExec(s, leaseId, command, env).Written?
    ensures CreatesExec(s, Folded(s, CreateExec(s, leaseId, command, env).records), leaseId, command, env)
  {
    FoldedOne(s, CreateExec(s, leaseId, command, env).records[0]);
  }

  /** A live exec moves on. Running, it has its agent generation running with it, and
      no other agent record changes. */
  ghost predicate MovesExec(s: State, t: State, id: Token, state: ExecState, env: Env) {
    && id in s.execs && id in t.execs
    && var p, v := s.execs[id], t.execs[id];
    && ExecStep(p.state, state) && !ExecTerminal(state)
    && v == p.(state := state, revision := p.revision + 1, updatedAt := env.stamp)
    && p.identity.leaseId in s.leases && LeaseAdmits(s.leases[p.identity.leaseId], env.guard)
    && t == s.(execs := s.execs[id := v], agents := t.agents)
    && (if t.agents == s.agents then state.ExecRunning? ==> RunningOn(s, p)
        else
          && state.ExecRunning? && RunningOn(t, p)
          && AgentGenReplaced(s, s.(agents := t.agents), p.identity.agentId, p.identity.agentGeneration, env.stamp)
          && s.agents[p.identity.agentId].generations[p.identity.agentGeneration - 1].state.AgentReady?)
  }

  ghost predicate RunningOn(s: State, e: Exec) {
    && e.identity.agentId in s.agents
    && 1 <= e.identity.agentGeneration <= |s.agents[e.identity.agentId].generations|
    && s.agents[e.identity.agentId].generations[e.identity.agentGeneration - 1].state.AgentRunning?
  }

  lemma TransitionExecDoes(s: State, id: Token, expected: nat, state: ExecState, env: Env)
    requires ExecsFiled(s)
    requires AgentsFiled(s)
    requires TransitionExec(s, id, expected, state, env).Written?
    ensures MovesExec(s, Folded(s, TransitionExec(s, id, expected, state, env).records), id, state, env)
  {
    var records, e := TransitionExec(s, id, expected, state, env).records, s.execs[id];
    var moved := e.(state := state, revision := e.revision + 1, updatedAt := env.stamp);
    if |records| == 1 {
      ExecAlone(s, e, moved, env);
    } else {
      ExecAndAgent(s, e, moved, s.agents[e.identity.agentId], env);
    }
  }

  /** A live exec under an admitting lease that may take a step. */
  ghost predicate Steps(s: State, e: Exec, moved: Exec, env: Env) {
    && e.id in s.execs && s.execs[e.id] == e && ExecStep(e.state, moved.state) && !ExecTerminal(moved.state)
    && moved == e.(state := moved.state, revision := e.revision + 1, updatedAt := env.stamp)
    && e.identity.leaseId in s.leases && LeaseAdmits(s.leases[e.identity.leaseId], env.guard)
  }

  lemma ExecAlone(s: State, e: Exec, moved: Exec, env: Env)
    requires Steps(s, e, moved, env) && (moved.state.ExecRunning? ==> RunningOn(s, e))
    ensures MovesExec(s, Folded(s, [Entry(ExecBody(moved))]), e.id, moved.state, env)
  {
    FoldedOne(s, Entry(ExecBody(moved)));
  }

  lemma ExecAndAgent(s: State, e: Exec, moved: Exec, a: Agent, env: Env)
    requires Steps(s, e, moved, env) && moved.state.ExecRunning? && e.identity.agentId in s.agents
            && a == s.agents[e.identity.agentId] && a.id == e.identity.agentId
    requires 1 <= e.identity.agentGeneration <= |a.generations|
            && a.generations[e.identity.agentGeneration - 1].state.AgentReady?
    ensures MovesExec(s, Folded(s,
            [Entry(AgentBody(AgentGenMoved(a, e.identity.agentGeneration - 1, AgentRunning, env.stamp))),
            Entry(ExecBody(moved))]),
                      e.id, moved.state, env)
  {
    FoldedTwo(s, Entry(AgentBody(AgentGenMoved(a, e.identity.agentGeneration - 1, AgentRunning, env.stamp))),
        Entry(ExecBody(moved)));
    MovedIsReplaced(s, a, e.identity.agentGeneration, AgentRunning, env.stamp);
  }

  /** A live exec ends, whatever its lease is doing; an exit code once known is kept. */
  ghost predicate EndsExec(s: State, t: State, id: Token, state: ExecState, outcome: ExecOutcome,
      incidentIds: seq<Token>, env: Env)
  {
    && id in s.execs && OnlyExec(s, t, id)
    && var p, v := s.execs[id], t.execs[id];
    && ExecStep(p.state, state) && ExecTerminal(state)
    && v == p.(state := state, revision := p.revision + 1, updatedAt := env.stamp, outcome := v.outcome,
        incidentIds := v.incidentIds)
    && v.outcome == outcome.(exitCode := v.outcome.exitCode)
    && v.outcome.exitCode == (if outcome.exitCode.Some? then outcome.exitCode else p.outcome.exitCode)
    && (state.ExecCompleted? ==> v.outcome.exitCode == Some(0) && v.outcome.cleanupConfirmed)
    && United(p.incidentIds, incidentIds, v.incidentIds)
  }

  lemma FinalizeExecDoes(s: State, id: Token, expected: nat, state: ExecState, outcome: ExecOutcome,
      incidentIds: seq<Token>, env: Env)
    requires ExecsFiled(s)
    requires FinalizeExec(s, id, expected, state, outcome, incidentIds, env).Written?
    ensures EndsExec(s, Folded(s, FinalizeExec(s, id, expected, state, outcome, incidentIds, env).records), id, state,
            outcome, incidentIds, env)
  {
    FoldedOne(s, FinalizeExec(s, id, expected, state, outcome, incidentIds, env).records[0]);
  }
}

/** The commands on agent workspaces commit only what replay accepts. */
module AgentCommands {
  import opened States
  import opened Records
  import opened Replay
  import opened Commands
  import opened Invariant
  import opened Landing
  import opened Owners
  import opened Chains

  predicate AgentGenEdited(p: AgentGen, v: AgentGen, at: Time) {
    v == p ||
    (&& p.identity == v.identity && v.revision == p.revision + 1 && v.updatedAt == at
     && (p.binding == v.binding || (p.binding.Empty() && v.binding.Complete()))
     && (p.state == v.state || AgentStep(p.state, v.state)))
  }

  /** The next revision of an agent workspace, with its generations edited in place. */
  ghost predicate AgentEdited(p: Agent, v: Agent, at: Time) {
    && p.id == v.id && p.sessionId == v.sessionId && p.createdAt == v.createdAt && p.current == v.current
    && v.revision == p.revision + 1 && p.updatedAt <= at == v.updatedAt
    && |p.generations| == |v.generations|
    && (forall i | 0 <= i < |p.generations| :: AgentGenEdited(p.generations[i], v.generations[i], at))
  }

  lemma AgentEditedAdvances(p: Agent, v: Agent, at: Time)
    requires ValidAgent(p) && AgentEdited(p, v, at)
    ensures AgentAdvances(p, v) && AgentKept(p, v)
  {}

  lemma AgentEditedValid(p: Agent, v: Agent, at: Time)
    requires ValidAgent(p) && AgentEdited(p, v, at)
    ensures ValidAgent(v)
  {}

  lemma AgentEditedFits(x: Session, l: Lease, p: Agent, v: Agent, at: Time)
    requires Fits(x, l, p) && AgentEdited(p, v, at)
    ensures Fits(x, l, v)
  {
    AgentEditedValid(p, v, at);
    forall i | 0 <= i < |v.generations|
      ensures v.generations[i].identity == p.generations[i].identity
      ensures AgentTerminal(p.generations[i].state) ==> AgentTerminal(v.generations[i].state)
    {
      assert AgentGenEdited(p.generations[i], v.generations[i], at);
    }
  }

  lemma LinkedOfFits(s: State, x: Session, l: Lease, a: Agent)
    requires Fits(x, l, a) && x.id in s.sessions && l.id in s.leases && s.sessions[x.id] == x && s.leases[l.id] == l
    ensures LinkedAgent(s, a)
  {}

  /** A generation may settle only when its execs have ended. */
  ghost predicate SettlesQuietly(s: State, p: Agent, v: Agent) {
    forall g | SettledAt(v, g) :: SettledAt(p, g) || ExecsDone(s, v.id, g)
  }

  lemma QuietExecs(s: State, l: Lease, p: Agent, v: Agent)
    requires ExecsInv(s) && p.id == v.id && p.id in s.agents && s.agents[p.id] == p && SettlesQuietly(s, p, v)
    requires l.id in s.leases && s.leases[l.id] == l
    ensures ExecsReady(s, l, v)
  {}

  lemma RecordedTargetsReady(s: State, l: Lease)
    requires TargetsInv(s) && l.id in s.leases && s.leases[l.id] == l
    ensures TargetsReady(s, l)
  {}

  lemma AppendAgent(s: State, v: Agent)
    requires ValidAgent(v) && LinkedAgent(s, v)
    requires if v.id in s.agents then AgentAdvances(s.agents[v.id], v) else v.revision == 1
    ensures Appends(s, Entry(AgentBody(v)), Put(s, AgentBody(v)))
  {}

  lemma OwnedIsPut(s: State, x: Session, l: Lease, v: Agent)
    requires x.id in s.sessions && l.id in s.leases && s.sessions[x.id] == x && s.leases[l.id] == l
    ensures Owned(s, x, l, v) == Put(s, AgentBody(v))
  {}

  /** The lease of a recorded agent workspace. */
  function LeaseOf(s: State, a: Agent): Token
    requires a.sessionId in s.sessions
  {
    s.sessions[a.sessionId].identity.leaseId
  }

  /** A recorded agent with its owners. */
  ghost predicate Kept(s: State, a: Agent, at: Time) {
    && a.id in s.agents && s.agents[a.id] == a && a.updatedAt <= at
    && a.sessionId in s.sessions && LeaseOf(s, a) in s.leases
    && s.sessions[a.sessionId].id == a.sessionId && s.leases[LeaseOf(s, a)].id == LeaseOf(s, a)
    && Fits(s.sessions[a.sessionId], s.leases[LeaseOf(s, a)], a)
  }

  lemma KeptAgent(s: State, id: Token, at: Time)
    requires SessionsInv(s) && LeasesInv(s) && AgentsInv(s) && Before(s, at) && id in s.agents
    ensures Kept(s, s.agents[id], at) && s.agents[id].id == id
  {}

  ghost predicate AgentRevises(s: State, v: Agent, at: Time) {
    && v.id in s.agents && Kept(s, s.agents[v.id], at)
    && AgentEdited(s.agents[v.id], v, at) && SettlesQuietly(s, s.agents[v.id], v)
  }

  lemma AgentEditOwners(s: State, v: Agent, at: Time)
    requires AgentRevises(s, v, at)
    ensures var x, l := s.sessions[v.sessionId], s.leases[LeaseOf(s, v)];
            Fits(x, l, v) && SameOwners(s, x, l, v) && Owned(s, x, l, v) == Put(s, AgentBody(v))
  {
    var p := s.agents[v.id];
    var x, l := s.sessions[p.sessionId], s.leases[LeaseOf(s, p)];
    AgentEditedAdvances(p, v, at);
    AgentEditedFits(x, l, p, v, at);
    OwnedIsPut(s, x, l, v);
  }

  lemma AgentEditReady(s: State, v: Agent, at: Time)
    requires ExecsInv(s) && TargetsInv(s) && AgentRevises(s, v, at)
    ensures ExecsReady(s, s.leases[LeaseOf(s, v)], v) && TargetsReady(s, s.leases[LeaseOf(s, v)])
  {
    var l := s.leases[LeaseOf(s, v)];
    QuietExecs(s, l, s.agents[v.id], v);
    RecordedTargetsReady(s, l);
  }

  lemma AgentEditEvolves(s: State, v: Agent, at: Time)
    requires Inv(s) && AgentRevises(s, v, at)
    ensures Inv(Put(s, AgentBody(v))) && Evolves(s, Put(s, AgentBody(v)))
  {
    AgentEditOwners(s, v, at);
    AgentEditReady(s, v, at);
    InvAfterOwners(s, s.sessions[v.sessionId], s.leases[LeaseOf(s, v)], v);
  }

  lemma AgentEditAppends(s: State, v: Agent, at: Time)
    requires AgentRevises(s, v, at)
    ensures Appends(s, Entry(AgentBody(v)), Put(s, AgentBody(v)))
  {
    var p := s.agents[v.id];
    var x, l := s.sessions[p.sessionId], s.leases[LeaseOf(s, p)];
    AgentEditedAdvances(p, v, at);
    AgentEditedFits(x, l, p, v, at);
    LinkedOfFits(s, x, l, v);
    AppendAgent(s, v);
  }

  lemma AgentRevisionLands(s: State, v: Agent, at: Time)
    requires Inv(s) && AgentRevises(s, v, at)
    ensures Lands(s, Entry(AgentBody(v)), Put(s, AgentBody(v)))
  {
    AgentEditAppends(s, v, at);
    AgentEditEvolves(s, v, at);
  }

  // ------------------------------------------------------------------- commands

  lemma AgentIndexIs(a: Agent, generation: nat)
    requires ValidAgent(a) && AgentGenIndex(a.generations, generation) < |a.generations|
    ensures AgentGenIndex(a.generations, generation) == generation - 1
  {}

  lemma AgentCurrentIsLast(a: Agent)
    requires ValidAgent(a)
    ensures AgentGenIndex(a.generations, a.current) == |a.generations| - 1
  {
    var n := |a.generations|;
    assert a.generations[n - 1].identity.generation == n;
    assert AgentGenIndex(a.generations, a.current) < n;
  }

  lemma AgentGenRevises(s: State, a: Agent, i: nat, g: AgentGen, at: Time)
    requires Kept(s, a, at) && i < |a.generations| && AgentGenEdited(a.generations[i], g, at)
    requires AgentSettled(g.state) ==> AgentSettled(a.generations[i].state) || ExecsDone(s, a.id, i + 1)
    ensures AgentRevises(s, WithAgentGen(a, i, g, at), at)
  {}

  ghost predicate AgentRevisesOne(s: State, o: Outcome, at: Time) {
    o.Written? ==>
      && |o.records| == 1 && o.records[0].body.AgentBody?
      && o.records == [Entry(AgentBody(o.records[0].body.agent))] && AgentRevises(s, o.records[0].body.agent, at)
  }

  lemma AgentRevisionAgreed(s: State, v: Agent, at: Time)
    requires Inv(s) && AgentRevises(s, v, at)
    ensures Agreed(s, [Entry(AgentBody(v))])
  {
    AgentRevisionLands(s, v, at);
    Alone(s, Entry(AgentBody(v)), Put(s, AgentBody(v)));
  }

  lemma AgentRevisionAgrees(s: State, o: Outcome, at: Time)
    requires Inv(s) && AgentRevisesOne(s, o, at)
    ensures Agrees(s, o)
  {
    if o.Written? { AgentRevisionAgreed(s, o.records[0].body.agent, at); }
  }

  lemma TransitionAgentRevises(s: State, id: Token, generation: nat, expected: nat, state: AgentState, env: Env)
    requires id in s.agents ==> Kept(s, s.agents[id], env.stamp) && s.agents[id].id == id
    ensures AgentRevisesOne(s, TransitionAgent(s, id, generation, expected, state, env), env.stamp)
  {
    if TransitionAgent(s, id, generation, expected, state, env).Written? {
      var a := s.agents[id];
      AgentIndexIs(a, generation);
      var g := a.generations[generation - 1];
      AgentGenRevises(s, a, generation - 1, g.(state := state, revision := g.revision + 1, updatedAt := env.stamp),
          env.stamp);
    }
  }

  lemma BindAgentPlanRevises(s: State, id: Token, generation: nat, expected: nat, binding: AgentBinding, env: Env)
    requires id in s.agents ==> Kept(s, s.agents[id], env.stamp) && s.agents[id].id == id
    ensures AgentRevisesOne(s, BindAgentPlan(s, id, generation, expected, binding, env), env.stamp)
  {}

  // ----------------------------------------------------------- retirement trails

  lemma {:induction false} AgentAlongKeeps(a: Agent, i: nat, path: seq<AgentState>, at: Time)
    requires i < |a.generations|
    ensures var v := AgentAlong(a, i, path, at);
            && v.id == a.id && v.sessionId == a.sessionId && v.createdAt == a.createdAt && v.current == a.current
            && |v.generations| == |a.generations|
            && v.generations[i].state == (if path == [] then a.generations[i].state else path[|path| - 1])
            && (forall k | 0 <= k < |v.generations| :: v.generations[k].identity == a.generations[k].identity)
            && (path == [] ==> v == a) && (path != [] ==> v.updatedAt == at)
    decreases |path|
  {
    if path != [] { AgentAlongKeeps(AgentGenMoved(a, i, path[0], at), i, path[1..], at); }
  }

  lemma AgentPutAgain(s: State, v: Agent, w: Agent)
    requires v.id == w.id
    ensures Put(Put(s, AgentBody(v)), AgentBody(w)) == Put(s, AgentBody(w))
  {}

  lemma AgentPutSame(s: State, a: Agent)
    requires a.id in s.agents && s.agents[a.id] == a
    ensures Put(s, AgentBody(a)) == s
  {}

  lemma AgentTrailUnfolds(s: State, a: Agent, i: nat, path: seq<AgentState>, at: Time)
    requires i < |a.generations| && path != []
    ensures var next := AgentGenMoved(a, i, path[0], at);
            var end := AgentAlong(next, i, path[1..], at);
            && AgentAlong(a, i, path, at) == end
            && AgentTrail(a, i, path, at) == [Entry(AgentBody(next))] + AgentTrail(next, i, path[1..], at)
            && Put(Put(s, AgentBody(next)), AgentBody(end)) == Put(s, AgentBody(end))
  {
    var next := AgentGenMoved(a, i, path[0], at);
    AgentAlongKeeps(next, i, path[1..], at);
    AgentPutAgain(s, next, AgentAlong(next, i, path[1..], at));
  }

  lemma MovedKept(s: State, v: Agent, at: Time)
    requires AgentRevises(s, v, at)
    ensures Kept(Put(s, AgentBody(v)), v, at)
  {
    var p := s.agents[v.id];
    AgentEditedFits(s.sessions[p.sessionId], s.leases[LeaseOf(s, p)], p, v, at);
  }

  lemma AgentMovedRevises(s: State, a: Agent, i: nat, state: AgentState, at: Time)
    requires Kept(s, a, at) && i < |a.generations| && AgentStep(a.generations[i].state, state)
            && ExecsDone(s, a.id, i + 1)
    ensures var next := AgentGenMoved(a, i, state, at);
            AgentRevises(s, next, at) && Kept(Put(s, AgentBody(next)), next, at)
                && ExecsDone(Put(s, AgentBody(next)), next.id, i + 1)
  {
    var g := a.generations[i];
    AgentGenRevises(s, a, i, g.(state := state, revision := g.revision + 1, updatedAt := at), at);
    MovedKept(s, AgentGenMoved(a, i, state, at), at);
  }

  /** What lets a realization be retired along a path. */
  ghost predicate Retirable(s: State, a: Agent, i: nat, path: seq<AgentState>, at: Time) {
    Kept(s, a, at) && i < |a.generations| && LegalAgentPath(a.generations[i].state, path) && ExecsDone(s, a.id, i + 1)
  }

  lemma AgentTrailStep(s: State, a: Agent, i: nat, path: seq<AgentState>, at: Time)
    requires Retirable(s, a, i, path, at) && path != []
    ensures var next := AgentGenMoved(a, i, path[0], at);
            AgentRevises(s, next, at) && Retirable(Put(s, AgentBody(next)), next, i, path[1..], at)
  {
    AgentMovedRevises(s, a, i, path[0], at);
  }

  /** Retiring an idle agent realization, one legal state after the other. */
  lemma {:induction false} AgentTrailReaches(s: State, a: Agent, i: nat, path: seq<AgentState>, at: Time)
    requires Inv(s) && Retirable(s, a, i, path, at)
    ensures Reaches(s, AgentTrail(a, i, path, at), Put(s, AgentBody(AgentAlong(a, i, path, at))))
    decreases |path|
  {
    if path == [] {
      AgentPutSame(s, a);
      ReachesSelf(s);
    } else {
      var next := AgentGenMoved(a, i, path[0], at);
      var m := Put(s, AgentBody(next));
      AgentTrailStep(s, a, i, path, at);
      AgentRevisionLands(s, next, at);
      AgentTrailReaches(m, next, i, path[1..], at);
      AgentTrailUnfolds(s, a, i, path, at);
      ReachesAfter(s, Entry(AgentBody(next)), m, AgentTrail(next, i, path[1..], at),
                   Put(m, AgentBody(AgentAlong(next, i, path[1..], at))));
    }
  }
}

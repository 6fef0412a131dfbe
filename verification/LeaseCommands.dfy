/** Acquisition, renewal and the two phases of lease termination commit only what
    replay accepts. */
module LeaseCommands {
  import opened States
  import opened Records
  import opened Replay
  import opened Commands
  import opened Invariant
  import opened Landing
  import opened Owners
  import opened Chains
  import opened TargetCommands
  import opened TargetGrowth
  import opened AgentCommands
  import opened RecoveryCommands

  lemma AppendSession(s: State, v: Session)
    requires ValidSession(v) && LinkedSession(s, v)
    requires if v.id in s.sessions then SessionAdvances(s.sessions[v.id], v) else v.revision == 1
    ensures Appends(s, Entry(SessionBody(v)), Put(s, SessionBody(v)))
  {}

  // ----------------------------------------------------------------- acquisition

  ghost predicate FreshOwners(s: State, ids: Ids) {
    && ids.session != 0 && ids.lease != 0 && ids.agent != 0 && ids.workspace != 0
    && ids.session !in s.sessions && ids.lease !in s.leases && ids.agent !in s.agents
  }

  /** A session at one of its first three revisions. */
  function NewSession(owner: Token, key: Token, provenance: Provenance, state: SessionState, revision: nat,
      env: Env): Session
  {
    Session(env.ids.session, SessionIdentity(owner, key, env.ids.lease, env.ids.agent, provenance, env.stamp), state,
        revision, env.stamp)
  }

  function NewLease(provenance: Provenance, ttl: nat, env: Env): Lease {
    Lease(env.ids.lease, LeaseIdentity(env.ids.session, env.ids.agent, provenance, env.stamp), 1, LeaseActive,
          env.stamp + ttl, NO_TERMINATION, 1, env.stamp)
  }

  function NewAgent(provenance: Provenance, env: Env): Agent {
    Agent(env.ids.agent, env.ids.session, env.stamp, 1, 1, env.stamp, [NewAgentGen(1, provenance, 0, 0, env)])
  }

  ghost predicate Acquirable(s: State, key: Token, owner: Token, provenance: Provenance, ttl: nat, env: Env) {
    && FreshOwners(s, env.ids) && env.stamp != 0
    && key != 0 && owner != 0 && CompleteProvenance(provenance) && ttl != 0
  }

  lemma NewFits(s: State, key: Token, owner: Token, provenance: Provenance, ttl: nat, env: Env)
    requires Acquirable(s, key, owner, provenance, ttl, env)
    ensures var x := NewSession(owner, key, provenance, SessionLeased, 3, env);
            Fits(x, NewLease(provenance, ttl, env), NewAgent(provenance, env))
                && NewOwners(s, x, NewLease(provenance, ttl, env), NewAgent(provenance, env))
  {}

  lemma NewReady(s: State, l: Lease, a: Agent)
    requires ExecsInv(s) && a.id !in s.agents && Open(l)
    ensures ExecsReady(s, l, a) && TargetsReady(s, l)
  {}

  lemma FirstSession(s: State, key: Token, owner: Token, provenance: Provenance, ttl: nat, env: Env)
    requires Acquirable(s, key, owner, provenance, ttl, env)
    ensures var x := NewSession(owner, key, provenance, SessionRequested, 1, env);
            Appends(s, Entry(SessionBody(x)), Put(s, SessionBody(x)))
  {}

  lemma NextSession(s: State, m: State, key: Token, owner: Token, provenance: Provenance, ttl: nat, env: Env,
      p: Session, x: Session)
    requires Acquirable(s, key, owner, provenance, ttl, env)
    requires p == NewSession(owner, key, provenance, p.state, p.revision, env)
            && x == NewSession(owner, key, provenance, x.state, x.revision, env)
    requires SessionStep(p.state, x.state) && x.revision == p.revision + 1
    requires m == Put(s, SessionBody(p))
    ensures Appends(m, Entry(SessionBody(x)), Put(m, SessionBody(x)))
            && Put(m, SessionBody(x)) == Put(s, SessionBody(x))
  {}

  lemma NewLeaseAppends(s: State, key: Token, owner: Token, provenance: Provenance, ttl: nat, env: Env)
    requires Acquirable(s, key, owner, provenance, ttl, env)
    ensures var m := Put(s, SessionBody(NewSession(owner, key, provenance, SessionLeased, 3, env)));
            Appends(m, Entry(LeaseBody(NewLease(provenance, ttl, env))),
                Put(m, LeaseBody(NewLease(provenance, ttl, env))))
  {}

  lemma NewAgentAppends(s: State, key: Token, owner: Token, provenance: Provenance, ttl: nat, env: Env)
    requires Acquirable(s, key, owner, provenance, ttl, env)
    ensures var x, l, a := NewSession(owner, key, provenance, SessionLeased, 3, env), NewLease(provenance, ttl, env),
            NewAgent(provenance, env);
            var m := Put(Put(s, SessionBody(x)), LeaseBody(l));
            Appends(m, Entry(AgentBody(a)), Put(m, AgentBody(a))) && Put(m, AgentBody(a)) == Owned(s, x, l, a)
  {}

  function FirstRecords(owner: Token, key: Token, provenance: Provenance, env: Env): seq<Control> {
    [Entry(SessionBody(NewSession(owner, key, provenance, SessionRequested, 1, env))),
     Entry(SessionBody(NewSession(owner, key, provenance, SessionAdmitted, 2, env))),
     Entry(SessionBody(NewSession(owner, key, provenance, SessionLeased, 3, env)))]
  }

  /** The session passes through its first three states inside one transaction. */
  lemma SessionsFollow(s: State, key: Token, owner: Token, provenance: Provenance, ttl: nat, env: Env)
    requires Acquirable(s, key, owner, provenance, ttl, env)
    ensures Follows(s, FirstRecords(owner, key, provenance, env),
                    Put(s, SessionBody(NewSession(owner, key, provenance, SessionLeased, 3, env))))
  {
    var x := NewSession(owner, key, provenance, SessionRequested, 1, env);
    var y := NewSession(owner, key, provenance, SessionAdmitted, 2, env);
    var z := NewSession(owner, key, provenance, SessionLeased, 3, env);
    FirstSession(s, key, owner, provenance, ttl, env);
    NextSession(s, Put(s, SessionBody(x)), key, owner, provenance, ttl, env, x, y);
    NextSession(s, Put(s, SessionBody(y)), key, owner, provenance, ttl, env, y, z);
    Two(s, Entry(SessionBody(x)), Put(s, SessionBody(x)), Entry(SessionBody(y)), Put(s, SessionBody(y)));
    Extended(s, [Entry(SessionBody(x)), Entry(SessionBody(y))], Put(s, SessionBody(y)), Entry(SessionBody(z)),
        Put(s, SessionBody(z)));
    assert [Entry(SessionBody(x)), Entry(SessionBody(y))] + [Entry(SessionBody(z))] ==
        FirstRecords(owner, key, provenance, env);
  }

  lemma AcquireFollows(s: State, key: Token, owner: Token, provenance: Provenance, ttl: nat, env: Env)
    requires Acquirable(s, key, owner, provenance, ttl, env)
    ensures var x, l, a := NewSession(owner, key, provenance, SessionLeased, 3, env), NewLease(provenance, ttl, env),
            NewAgent(provenance, env);
            Follows(s, FirstRecords(owner, key, provenance, env) + [Entry(LeaseBody(l))] + [Entry(AgentBody(a))],
                Owned(s, x, l, a))
  {
    var x, l, a := NewSession(owner, key, provenance, SessionLeased, 3, env), NewLease(provenance, ttl, env),
        NewAgent(provenance, env);
    SessionsFollow(s, key, owner, provenance, ttl, env);
    NewLeaseAppends(s, key, owner, provenance, ttl, env);
    Extended(s, FirstRecords(owner, key, provenance, env), Put(s, SessionBody(x)), Entry(LeaseBody(l)),
        Put(Put(s, SessionBody(x)), LeaseBody(l)));
    NewAgentAppends(s, key, owner, provenance, ttl, env);
    Extended(s, FirstRecords(owner, key, provenance, env) + [Entry(LeaseBody(l))],
             Put(Put(s, SessionBody(x)), LeaseBody(l)), Entry(AgentBody(a)), Owned(s, x, l, a));
  }

  lemma AcquireWrites(s: State, key: Token, owner: Token, provenance: Provenance, ttl: nat, env: Env)
    requires Acquire(s, key, owner, provenance, ttl, env).Written?
    ensures key != 0 && owner != 0 && CompleteProvenance(provenance) && ttl != 0
    ensures Acquire(s, key, owner, provenance, ttl, env).records ==
            FirstRecords(owner, key, provenance, env) + [Entry(LeaseBody(NewLease(provenance, ttl, env)))]
                + [Entry(AgentBody(NewAgent(provenance, env)))]
  {}

  lemma AcquireAgrees(s: State, key: Token, owner: Token, provenance: Provenance, ttl: nat, env: Env)
    requires Inv(s) && FreshOwners(s, env.ids) && env.stamp != 0
    ensures Agrees(s, Acquire(s, key, owner, provenance, ttl, env))
  {
    if Acquire(s, key, owner, provenance, ttl, env).Written? {
      var x, l, a := NewSession(owner, key, provenance, SessionLeased, 3, env), NewLease(provenance, ttl, env),
          NewAgent(provenance, env);
      AcquireWrites(s, key, owner, provenance, ttl, env);
      AcquireFollows(s, key, owner, provenance, ttl, env);
      NewFits(s, key, owner, provenance, ttl, env);
      NewReady(s, l, a);
      InvAfterOwners(s, x, l, a);
      ReachedAgreed(s, Acquire(s, key, owner, provenance, ttl, env).records, Owned(s, x, l, a));
    }
  }
}

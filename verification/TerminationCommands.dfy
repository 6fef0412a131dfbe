/** Renewal and the two phases of lease termination commit only what replay accepts.
    A release does so exactly when the clock has not reached the expiry between its
    gate and its record. */
module TerminationCommands {
  import opened States
  import opened Records
  import opened Replay
  import opened Commands
  import opened Invariant
  import opened Landing
  import opened Owners
  import opened Chains
  import opened TargetCommands
  import opened TargetGrowth
  import opened AgentCommands
  import opened RecoveryCommands
  import opened LeaseCommands

  /** A recorded lease with its session and agent workspace. */
  ghost predicate Leased(s: State, x: Session, l: Lease, a: Agent, at: Time) {
    && x.id in s.sessions && s.sessions[x.id] == x && l.id in s.leases && s.leases[l.id] == l && a.id in s.agents
    && s.agents[a.id] == a
    && Fits(x, l, a) && x.updatedAt <= at && l.updatedAt <= at && a.updatedAt <= at
  }

  function SessionOf(s: State, l: Lease): Session
    requires l.identity.sessionId in s.sessions
  {
    s.sessions[l.identity.sessionId]
  }

  function AgentOf(s: State, l: Lease): Agent
    requires l.identity.agentId in s.agents
  {
    s.agents[l.identity.agentId]
  }

  ghost predicate Hosting(s: State, leaseId: Token, at: Time)
    requires leaseId in s.leases
  {
    && s.leases[leaseId].identity.sessionId in s.sessions && s.leases[leaseId].identity.agentId in s.agents
    && Leased(s, SessionOf(s, s.leases[leaseId]), s.leases[leaseId], AgentOf(s, s.leases[leaseId]), at)
    && s.leases[leaseId].id == leaseId
  }

  lemma LeasedOf(s: State, leaseId: Token, at: Time)
    requires SessionsInv(s) && LeasesInv(s) && AgentsInv(s) && Before(s, at) && leaseId in s.leases
    ensures Hosting(s, leaseId, at)
  {
    TripleOf(s, leaseId);
  }

  // --------------------------------------------------------------------- renewal

  function Renewed(l: Lease, expiresAt: Time, at: Time): Lease {
    l.(revision := l.revision + 1, expiresAt := expiresAt, updatedAt := at)
  }

  lemma RenewedFits(s: State, x: Session, l: Lease, a: Agent, expiresAt: Time, at: Time)
    requires Leased(s, x, l, a, at) && Open(l) && l.expiresAt < expiresAt
    ensures var r := Renewed(l, expiresAt, at);
            Fits(x, r, a) && SameOwners(s, x, r, a) && LeaseAdvances(l, r) && LinkedLease(s, r)
                && Owned(s, x, r, a) == Put(s, LeaseBody(r))
  {}

  lemma OpenReady(s: State, l: Lease, a: Agent)
    requires ExecsInv(s) && a.id in s.agents && s.agents[a.id] == a && !Closed(l)
    ensures ExecsReady(s, l, a) && TargetsReady(s, l)
  {}

  lemma RenewedReaches(s: State, x: Session, l: Lease, a: Agent, expiresAt: Time, at: Time)
    requires Inv(s) && Leased(s, x, l, a, at) && Open(l) && l.expiresAt < expiresAt
    ensures Reaches(s, [Entry(LeaseBody(Renewed(l, expiresAt, at)))], Put(s, LeaseBody(Renewed(l, expiresAt, at))))
  {
    var r := Renewed(l, expiresAt, at);
    RenewedFits(s, x, l, a, expiresAt, at);
    OpenReady(s, r, a);
    AppendLease(s, r);
    InvAfterOwners(s, x, r, a);
    ReachesOnce(s, Entry(LeaseBody(r)), Put(s, LeaseBody(r)));
  }

  lemma RenewLeaseWrites(s: State, leaseId: Token, expected: nat, ttl: nat, env: Env)
    requires RenewLease(s, leaseId, expected, ttl, env).Written?
    ensures leaseId in s.leases && Open(s.leases[leaseId])
    ensures var records := RenewLease(s, leaseId, expected, ttl, env).records;
            && |records| == 1 && records[0].body.LeaseBody?
            && var r := records[0].body.lease;
               records == [Entry(LeaseBody(r))] && s.leases[leaseId].expiresAt < r.expiresAt
                   && r == Renewed(s.leases[leaseId], r.expiresAt, env.stamp)
  {}

  lemma RenewLeaseAgrees(s: State, leaseId: Token, expected: nat, ttl: nat, env: Env)
    requires Inv(s)
    requires leaseId in s.leases ==> Hosting(s, leaseId, env.stamp)
    ensures Agrees(s, RenewLease(s, leaseId, expected, ttl, env))
  {
    if RenewLease(s, leaseId, expected, ttl, env).Written? {
      RenewLeaseWrites(s, leaseId, expected, ttl, env);
      var l, r := s.leases[leaseId], RenewLease(s, leaseId, expected, ttl, env).records[0].body.lease;
      RenewedReaches(s, SessionOf(s, l), l, AgentOf(s, l), r.expiresAt, env.stamp);
      ReachedAgreed(s, [Entry(LeaseBody(r))], Put(s, LeaseBody(r)));
    }
  }

  // ------------------------------------------------------------------ first phase

  function Begun(l: Lease, kind: TerminationKind, reason: Token, key: Token, digest: Token, at: Time): Lease {
    l.(state := if kind.ReleaseKind? then LeaseReleasing else l.state,
       revision := l.revision + 1, updatedAt := at,
       termination := Termination(kind, if kind.ReleaseKind? then TerminationReleasing else TerminationExpiring,
                                  reason, key, digest, l.revision + 1, at, 0, 0, 0))
  }

  /** A lease whose termination can begin at a time. */
  ghost predicate Beginnable(l: Lease, kind: TerminationKind, reason: Token, key: Token, digest: Token, at: Time) {
    && Open(l) && l.state.LeaseActive? && !kind.NoKind? && reason != 0 && key != 0 && digest != 0
    && (if kind.ReleaseKind? then at < l.expiresAt else l.expiresAt <= at)
  }

  lemma BegunFits(s: State, x: Session, l: Lease, a: Agent, kind: TerminationKind, reason: Token, key: Token,
      digest: Token, at: Time)
    requires Leased(s, x, l, a, at) && Beginnable(l, kind, reason, key, digest, at)
    ensures var r, y := Begun(l, kind, reason, key, digest, at), SessionMoved(x, SessionReleasing, at);
            && Fits(y, r, a) && SameOwners(s, y, r, a) && r.termination.InProgress()
            && LeaseAdvances(l, r) && LinkedLease(s, r) && SessionAdvances(x, y)
            && Owned(s, y, r, a) == Put(Put(s, LeaseBody(r)), SessionBody(y))
            && LinkedSession(Put(s, LeaseBody(r)), y) && Put(s, LeaseBody(r)).sessions == s.sessions
  {}

  lemma BegunAppends(s: State, x: Session, l: Lease, a: Agent, kind: TerminationKind, reason: Token, key: Token,
      digest: Token, at: Time)
    requires Leased(s, x, l, a, at) && Beginnable(l, kind, reason, key, digest, at)
    ensures var r, y := Begun(l, kind, reason, key, digest, at), SessionMoved(x, SessionReleasing, at);
            && Appends(s, Entry(LeaseBody(r)), Put(s, LeaseBody(r)))
            && Appends(Put(s, LeaseBody(r)), Entry(SessionBody(y)), Owned(s, y, r, a))
  {
    var r, y := Begun(l, kind, reason, key, digest, at), SessionMoved(x, SessionReleasing, at);
    BegunFits(s, x, l, a, kind, reason, key, digest, at);
    AppendLease(s, r);
    AppendSession(Put(s, LeaseBody(r)), y);
  }

  lemma BegunReaches(s: State, x: Session, l: Lease, a: Agent, kind: TerminationKind, reason: Token, key: Token,
      digest: Token, at: Time)
    requires Inv(s) && Leased(s, x, l, a, at) && Beginnable(l, kind, reason, key, digest, at)
    ensures var r, y := Begun(l, kind, reason, key, digest, at), SessionMoved(x, SessionReleasing, at);
            Reaches(s, [Entry(LeaseBody(r)), Entry(SessionBody(y))], Owned(s, y, r, a))
  {
    var r, y := Begun(l, kind, reason, key, digest, at), SessionMoved(x, SessionReleasing, at);
    BegunFits(s, x, l, a, kind, reason, key, digest, at);
    OpenReady(s, r, a);
    BegunAppends(s, x, l, a, kind, reason, key, digest, at);
    InvAfterOwners(s, y, r, a);
    ReachesPair(s, Entry(LeaseBody(r)), Put(s, LeaseBody(r)), Entry(SessionBody(y)), Owned(s, y, r, a));
  }

  lemma BeginWrites(s: State, leaseId: Token, kind: TerminationKind, expected: nat, reason: Token, key: Token,
      digest: Token, env: Env)
    requires BeginTermination(s, leaseId, kind, expected, reason, key, digest, env).Ok? && env.guard <= env.stamp
    ensures leaseId in s.leases && s.leases[leaseId].identity.sessionId in s.sessions
    ensures var l := s.leases[leaseId];
            && Open(l) && l.state.LeaseActive? && (kind.ExpiryKind? ==> l.expiresAt <= env.stamp)
            && BeginTermination(s, leaseId, kind, expected, reason, key, digest, env).value ==
               [Entry(LeaseBody(Begun(l, kind, reason, key, digest, env.stamp))),
                Entry(SessionBody(SessionMoved(SessionOf(s, l), SessionReleasing, env.stamp)))]
  {}

  lemma BeginReaches(s: State, leaseId: Token, kind: TerminationKind, expected: nat, reason: Token, key: Token,
      digest: Token, env: Env)
    requires Inv(s) && Before(s, env.stamp) && env.guard <= env.stamp && !kind.NoKind?
    requires reason != 0 && key != 0 && digest != 0
    requires BeginTermination(s, leaseId, kind, expected, reason, key, digest, env).Ok?
    requires kind.ReleaseKind? ==> leaseId in s.leases && env.stamp < s.leases[leaseId].expiresAt
    ensures Agreed(s, BeginTermination(s, leaseId, kind, expected, reason, key, digest, env).value)
  {
    BeginWrites(s, leaseId, kind, expected, reason, key, digest, env);
    LeasedOf(s, leaseId, env.stamp);
    var l := s.leases[leaseId];
    var x, a := SessionOf(s, l), AgentOf(s, l);
    BegunReaches(s, x, l, a, kind, reason, key, digest, env.stamp);
    ReachedAgreed(s, BeginTermination(s, leaseId, kind, expected, reason, key, digest, env).value,
                  Owned(s, SessionMoved(x, SessionReleasing, env.stamp),
                        Begun(l, kind, reason, key, digest, env.stamp), a));
  }
}

/** When commands that terminate a lease are accepted, what each refusal means, and the
    verdict on every command. */
module TerminationVerdicts {
  import opened States
  import opened Records
  import opened Replay
  import opened Commands
  import opened Effects
  import opened TargetEffects
  import opened RetirementEffects
  import opened OwnerVerdicts

  // ----------------------------------------------------------------------------- beginning

  /** A release begins while the lease serves, an expiry once it has run out. */
  predicate BeginFault(s: State, leaseId: Token, release: bool, expected: nat, env: Env, e: Error) {
    var known := leaseId in s.leases;
    match e
    case NotFound => !known || s.leases[leaseId].identity.sessionId !in s.sessions
    case FailedPrecondition =>
      known && (s.leases[leaseId].state != LeaseActive || (!release && env.guard < s.leases[leaseId].expiresAt))
    case IdempotencyConflict => known && s.leases[leaseId].termination != NO_TERMINATION
    case RevisionConflict => known && s.leases[leaseId].revision != expected
    case OutOfScope => known && release && !Serving(s.leases[leaseId], env.guard)
    case InvalidTransition =>
      && known && s.leases[leaseId].identity.sessionId in s.sessions
      && s.sessions[s.leases[leaseId].identity.sessionId].state != SessionLeased
    case _ => false
  }

  lemma BeginIs(s: State, leaseId: Token, kind: TerminationKind, expected: nat, reason: Token, key: Token,
      digest: Token, env: Env)
    requires !kind.NoKind?
    ensures var o := BeginTermination(s, leaseId, kind, expected, reason, key, digest, env);
            if o.Err? then BeginFault(s, leaseId, kind.ReleaseKind?, expected, env, o.error)
            else forall e :: !BeginFault(s, leaseId, kind.ReleaseKind?, expected, env, e)
  {}

  predicate BeginReleaseFault(s: State, leaseId: Token, expected: nat, reason: Token, key: Token, digest: Token,
      env: Env, e: Error)
  {
    || (e.InvalidArgument? && (reason == 0 || key == 0 || digest == 0 || expected == 0))
    || BeginFault(s, leaseId, true, expected, env, e)
  }

  lemma BeginReleaseIs(s: State, leaseId: Token, expected: nat, reason: Token, key: Token, digest: Token, env: Env)
    ensures var o := BeginRelease(s, leaseId, expected, reason, key, digest, env);
            if o.Rejected? then BeginReleaseFault(s, leaseId, expected, reason, key, digest, env, o.error)
            else forall e :: !BeginReleaseFault(s, leaseId, expected, reason, key, digest, env, e)
  {
    BeginIs(s, leaseId, ReleaseKind, expected, reason, key, digest, env);
  }

  predicate BeginExpiryFault(s: State, leaseId: Token, expected: nat, key: Token, digest: Token, env: Env, e: Error) {
    || (e.InvalidArgument? && (key == 0 || digest == 0 || expected == 0))
    || BeginFault(s, leaseId, false, expected, env, e)
  }

  lemma BeginExpiryIs(s: State, leaseId: Token, expected: nat, key: Token, digest: Token, env: Env)
    ensures var o := BeginExpiry(s, leaseId, expected, key, digest, env);
            if o.Rejected? then BeginExpiryFault(s, leaseId, expected, key, digest, env, o.error)
            else forall e :: !BeginExpiryFault(s, leaseId, expected, key, digest, env, e)
  {
    BeginIs(s, leaseId, ExpiryKind, expected, EXPIRY_REASON, key, digest, env);
  }

  // ---------------------------------------------------------------------------- completion

  /** Something under the lease has not ended. */
  ghost predicate Unended(s: State, leaseId: Token) {
    || (exists id :: id in s.execs && s.execs[id].identity.leaseId == leaseId && !ExecTerminal(s.execs[id].state))
    || (exists id, r :: id in s.targets && s.targets[id].identity.leaseId == leaseId && r in s.targets[id].runs
                        && !RunTerminal(r.state))
    || (exists id, o :: id in s.targets && s.targets[id].identity.leaseId == leaseId && o in s.targets[id].operations
                        && !OperationTerminal(o.state))
  }

  lemma TargetWorkIs(t: Target)
    ensures TargetWorkDone(t) <==>
            (forall r | r in t.runs :: RunTerminal(r.state))
            && (forall o | o in t.operations :: OperationTerminal(o.state))
  {
    forall k | 0 <= k < |t.runs| ensures t.runs[k] in t.runs {}
    forall k | 0 <= k < |t.operations| ensures t.operations[k] in t.operations {}
  }

  lemma WorkDoneIs(s: State, leaseId: Token)
    ensures LeaseWorkDone(s, leaseId) <==> !Unended(s, leaseId)
  {
    forall id | id in s.targets
      ensures TargetWorkDone(s.targets[id]) <==>
              (forall r | r in s.targets[id].runs :: RunTerminal(r.state))
              && (forall o | o in s.targets[id].operations :: OperationTerminal(o.state))
    {
      TargetWorkIs(s.targets[id]);
    }
  }

  /** The lease or its session is not in the state that a termination leaves it in. */
  predicate OutOfTurn(s: State, l: Lease) {
    || l.state != (if l.termination.kind.ExpiryKind? then LeaseActive else LeaseReleasing)
    || (l.identity.sessionId in s.sessions && s.sessions[l.identity.sessionId].state != SessionReleasing)
  }

  ghost predicate CompleteFault(s: State, leaseId: Token, expected: nat, key: Token, digest: Token, e: Error) {
    var known := leaseId in s.leases;
    match e
    case InvalidArgument => key == 0 || digest == 0 || expected == 0
    case NotFound =>
      || !known || s.leases[leaseId].identity.sessionId !in s.sessions
      || s.leases[leaseId].identity.agentId !in s.agents
    case IdempotencyConflict =>
      && known
      && (var v := s.leases[leaseId].termination;
          v.state in {TerminationReleased, TerminationExpired} || v.completeKey != 0 || v.completeDigest != 0)
    case FailedPrecondition =>
      known && (s.leases[leaseId].termination.state.NotTerminating? || Unended(s, leaseId))
    case RevisionConflict => known && s.leases[leaseId].revision != expected
    case InvalidTransition => known && OutOfTurn(s, s.leases[leaseId])
    case _ => false
  }

  lemma {:induction false} RetireTargetsSucceeds(s: State, ids: seq<Token>, at: Time)
    requires TargetsFiled(s) && forall id | id in ids :: id in s.targets
    ensures RetireTargets(s, ids, at).Ok?
    decreases |ids|
  {
    if ids != [] {
      RetireTargetsSucceeds(s, ids[..|ids| - 1], at);
      NumberedLast(s.targets[ids[|ids| - 1]]);
    }
  }

  lemma RetirementsSucceed(s: State, leaseId: Token, at: Time)
    requires TargetsFiled(s) && AgentsFiled(s)
    ensures RetireTargets(s, TargetIdsOf(s, leaseId), at).Ok?
    ensures leaseId in s.leases && s.leases[leaseId].identity.agentId in s.agents ==>
            RetireAgent(s.agents[s.leases[leaseId].identity.agentId], at).Ok?
  {
    RetireTargetsSucceeds(s, TargetIdsOf(s, leaseId), at);
    if leaseId in s.leases && s.leases[leaseId].identity.agentId in s.agents {
      AgentNumberedLast(s.agents[s.leases[leaseId].identity.agentId]);
    }
  }

  lemma EndingSteps(s: State, l: Lease, key: Token, digest: Token, at: Time)
    requires l.identity.sessionId in s.sessions
    ensures LeaseStep(l.state, Completed(l, key, digest, at).state)
            && SessionStep(s.sessions[l.identity.sessionId].state, SessionReleased)
            <==> !OutOfTurn(s, l)
  {}

  lemma GateKnows(s: State, leaseId: Token, expected: nat, key: Token, digest: Token)
    requires CompletionGate(s, leaseId, expected, key, digest).Ok?
    ensures leaseId in s.leases && CompletionGate(s, leaseId, expected, key, digest).value == s.leases[leaseId]
    ensures s.leases[leaseId].identity.sessionId in s.sessions && s.leases[leaseId].identity.agentId in s.agents
  {}

  lemma CompletionGateIs(s: State, leaseId: Token, expected: nat, key: Token, digest: Token)
    requires LeaseWorkDone(s, leaseId) <==> !Unended(s, leaseId)
    ensures var o := CompletionGate(s, leaseId, expected, key, digest);
            if o.Err? then CompleteFault(s, leaseId, expected, key, digest, o.error)
            else
              && leaseId in s.leases && o.value == s.leases[leaseId]
              && forall e: Error | !e.InvalidTransition? :: !CompleteFault(s, leaseId, expected, key, digest, e)
  {}

  lemma CompleteGate(s: State, leaseId: Token, expected: nat, key: Token, digest: Token, env: Env)
    requires RetireTargets(s, TargetIdsOf(s, leaseId), env.stamp).Ok?
    requires leaseId in s.leases && s.leases[leaseId].identity.agentId in s.agents ==>
             RetireAgent(s.agents[s.leases[leaseId].identity.agentId], env.stamp).Ok?
    ensures var g := CompletionGate(s, leaseId, expected, key, digest);
            var o := CompleteTermination(s, leaseId, expected, key, digest, env);
            if g.Err? then o == Err(g.error)
            else if OutOfTurn(s, g.value) then o == Err(InvalidTransition)
            else o.Ok?
  {
    if CompletionGate(s, leaseId, expected, key, digest).Ok? {
      GateKnows(s, leaseId, expected, key, digest);
      EndingSteps(s, s.leases[leaseId], key, digest, env.stamp);
    }
  }

  lemma CompleteIs(s: State, leaseId: Token, expected: nat, key: Token, digest: Token, env: Env)
    requires TargetsFiled(s) && AgentsFiled(s)
    ensures var o := CompleteTermination(s, leaseId, expected, key, digest, env);
            if o.Err? then CompleteFault(s, leaseId, expected, key, digest, o.error)
            else forall e :: !CompleteFault(s, leaseId, expected, key, digest, e)
  {
    WorkDoneIs(s, leaseId);
    RetirementsSucceed(s, leaseId, env.stamp);
    CompletionGateIs(s, leaseId, expected, key, digest);
    CompleteGate(s, leaseId, expected, key, digest, env);
  }

  ghost predicate CompleteReleaseFault(s: State, leaseId: Token, expected: nat, reason: Token, key: Token,
      digest: Token, e: Error)
  {
    || (&& e.IdempotencyConflict? && leaseId in s.leases
        && !(s.leases[leaseId].termination.kind.ReleaseKind? && s.leases[leaseId].termination.reason == reason))
    || CompleteFault(s, leaseId, expected, key, digest, e)
  }

  lemma CompleteReleaseIs(s: State, leaseId: Token, expected: nat, reason: Token, key: Token, digest: Token, env: Env)
    requires TargetsFiled(s) && AgentsFiled(s)
    ensures var o := CompleteRelease(s, leaseId, expected, reason, key, digest, env);
            if o.Rejected? then CompleteReleaseFault(s, leaseId, expected, reason, key, digest, o.error)
            else forall e :: !CompleteReleaseFault(s, leaseId, expected, reason, key, digest, e)
  {
    CompleteIs(s, leaseId, expected, key, digest, env);
  }
}

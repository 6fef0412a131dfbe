/** The second phase of lease termination: every realization is retired, then the
    lease and its session are closed in the same transaction. */
module CompletionCommands {
  import opened States
  import opened Records
  import opened Replay
  import opened Commands
  import opened Invariant
  import opened Landing
  import opened Owners
  import opened Chains
  import opened TargetCommands
  import opened TargetGrowth
  import opened AgentCommands
  import opened RecoveryCommands
  import opened LeaseCommands
  import opened TerminationCommands

  // ------------------------------------------------------------ retiring the targets

  function TargetRetired(t: Target, at: Time): Target
    requires t.generations != []
  {
    TargetAlong(t, |t.generations| - 1, TargetRetirement(t.generations[|t.generations| - 1].state), at)
  }

  lemma RetireTargetIs(t: Target, at: Time)
    requires ValidTarget(t)
    ensures t.generations != []
    ensures RetireTarget(t, at) ==
            Ok(TargetTrail(t, |t.generations| - 1, TargetRetirement(t.generations[|t.generations| - 1].state), at))
  {}

  /** The targets of a list are retired and nothing else has changed. */
  ghost predicate TargetsRetired(s: State, u: State, ids: seq<Token>, at: Time) {
    && u.sessions == s.sessions && u.leases == s.leases && u.agents == s.agents && u.execs == s.execs
    && u.incidents == s.incidents
    && u.targets.Keys == s.targets.Keys
    && forall id | id in s.targets ::
         if id in ids then s.targets[id].generations != [] && u.targets[id] == TargetRetired(s.targets[id], at)
         else u.targets[id] == s.targets[id]
  }

  lemma RetireOneReaches(s: State, t: Target, at: Time)
    requires Inv(s) && Sound(s, t, at) && t.generations != []
    ensures RetireTarget(t, at).Ok? && Reaches(s, RetireTarget(t, at).value, Put(s, TargetBody(TargetRetired(t, at))))
  {
    RetireTargetIs(t, at);
    var g := |t.generations| - 1;
    TrailReaches(s, t, g, TargetRetirement(t.generations[g].state), at);
  }

  lemma RetiredAfter(s: State, u: State, ids: seq<Token>, id: Token, at: Time)
    requires TargetsRetired(s, u, ids, at) && id !in ids && id in s.targets && s.targets[id].id == id
            && s.targets[id].generations != []
    ensures TargetsRetired(s, Put(u, TargetBody(TargetRetired(s.targets[id], at))), ids + [id], at)
  {
    var t := s.targets[id];
    AlongKeeps(t, |t.generations| - 1, TargetRetirement(t.generations[|t.generations| - 1].state), at);
    var w := Put(u, TargetBody(TargetRetired(t, at)));
    forall k | k in s.targets
      ensures if k in ids + [id] then s.targets[k].generations != [] && w.targets[k] == TargetRetired(s.targets[k], at)
              else w.targets[k] == s.targets[k]
    {
      assert k in ids + [id] <==> k in ids || k == id;
    }
  }

  ghost predicate AllSound(s: State, at: Time) {
    forall id | id in s.targets :: s.targets[id].id == id && ValidTarget(s.targets[id]) && s.targets[id].updatedAt <= at
  }

  lemma TargetsAllSound(s: State, at: Time)
    requires TargetsInv(s) && Before(s, at)
    ensures AllSound(s, at)
  {}

  lemma RetireTargetsUnfolds(s: State, ids: seq<Token>, at: Time)
    requires ids != [] && Distinct(ids) && forall id | id in ids :: id in s.targets
    requires RetireTargets(s, ids, at).Ok?
    ensures var front, last := ids[..|ids| - 1], ids[|ids| - 1];
            && ids == front + [last] && Distinct(front) && last !in front && last in s.targets
            && (forall id | id in front :: id in s.targets)
            && RetireTargets(s, front, at).Ok? && RetireTarget(s.targets[last], at).Ok?
            && RetireTargets(s, ids, at).value ==
                RetireTargets(s, front, at).value + RetireTarget(s.targets[last], at).value
  {}

  lemma LastIsSound(s: State, m: State, front: seq<Token>, last: Token, at: Time)
    requires AllSound(s, at) && TargetsRetired(s, m, front, at) && last in s.targets && last !in front
    ensures Sound(m, s.targets[last], at) && s.targets[last].generations != [] && s.targets[last].id == last
  {}

  lemma {:induction false} RetireTargetsReaches(s: State, ids: seq<Token>, at: Time) returns (u: State)
    requires Inv(s) && AllSound(s, at) && Distinct(ids) && forall id | id in ids :: id in s.targets
    requires RetireTargets(s, ids, at).Ok?
    ensures Reaches(s, RetireTargets(s, ids, at).value, u) && TargetsRetired(s, u, ids, at)
    decreases |ids|
  {
    if ids == [] {
      ReachesSelf(s);
      u := s;
    } else {
      RetireTargetsUnfolds(s, ids, at);
      var front, last := ids[..|ids| - 1], ids[|ids| - 1];
      var m := RetireTargetsReaches(s, front, at);
      LastIsSound(s, m, front, last, at);
      RetireOneReaches(m, s.targets[last], at);
      u := Put(m, TargetBody(TargetRetired(s.targets[last], at)));
      RetiredAfter(s, m, front, last, at);
      ReachesFurther(s, RetireTargets(s, front, at).value, m, RetireTarget(s.targets[last], at).value, u);
    }
  }

  /** Once its last realization is retired, a target without live work is done. */
  lemma RetiredDone(t: Target, at: Time)
    requires ValidTarget(t) && TargetWorkDone(t) && forall i | 0 <= i < |t.generations| - 1 ::
            TargetTerminal(t.generations[i].state)
    ensures TargetDone(TargetRetired(t, at))
  {
    var g := |t.generations| - 1;
    AlongKeeps(t, g, TargetRetirement(t.generations[g].state), at);
    AlongElsewhere(t, g, TargetRetirement(t.generations[g].state), at);
  }

  lemma {:induction false} AlongElsewhere(t: Target, i: nat, path: seq<TargetState>, at: Time)
    requires i < |t.generations|
    ensures forall k | 0 <= k < |t.generations| && k != i ::
            TargetAlong(t, i, path, at).generations[k] == t.generations[k]
    decreases |path|
  {
    if path != [] { AlongElsewhere(TargetGenMoved(t, i, path[0], at), i, path[1..], at); }
  }

  // ------------------------------------------------------- closing lease and session

  lemma ClosedFits(s: State, x: Session, l: Lease, a: Agent, key: Token, digest: Token, at: Time)
    requires Leased(s, x, l, a, at) && l.termination.InProgress() && AgentDone(a) && key != 0 && digest != 0
    ensures var r, y := Completed(l, key, digest, at), SessionMoved(x, SessionReleased, at);
            && Fits(y, r, a) && SameOwners(s, y, r, a) && Closed(r)
            && LeaseAdvances(l, r) && LinkedLease(s, r) && SessionAdvances(x, y)
            && Owned(s, y, r, a) == Put(Put(s, LeaseBody(r)), SessionBody(y))
            && LinkedSession(Put(s, LeaseBody(r)), y) && Put(s, LeaseBody(r)).sessions == s.sessions
  {}

  lemma ClosedAppends(s: State, x: Session, l: Lease, a: Agent, key: Token, digest: Token, at: Time)
    requires Leased(s, x, l, a, at) && l.termination.InProgress() && AgentDone(a) && key != 0 && digest != 0
    ensures var r, y := Completed(l, key, digest, at), SessionMoved(x, SessionReleased, at);
            && Appends(s, Entry(LeaseBody(r)), Put(s, LeaseBody(r)))
            && Appends(Put(s, LeaseBody(r)), Entry(SessionBody(y)), Owned(s, y, r, a))
  {
    var r, y := Completed(l, key, digest, at), SessionMoved(x, SessionReleased, at);
    ClosedFits(s, x, l, a, key, digest, at);
    AppendLease(s, r);
    AppendSession(Put(s, LeaseBody(r)), y);
  }

  /** Everything that runs under a lease has ended. */
  ghost predicate Drained(s: State, leaseId: Token) {
    && (forall id | id in s.execs :: s.execs[id].identity.leaseId == leaseId ==> ExecTerminal(s.execs[id].state))
    && (forall id | id in s.targets :: s.targets[id].identity.leaseId == leaseId ==> TargetDone(s.targets[id]))
  }

  lemma DrainedReady(s: State, l: Lease, a: Agent)
    requires ExecsInv(s) && a.id in s.agents && s.agents[a.id] == a && Drained(s, l.id)
    ensures ExecsReady(s, l, a) && TargetsReady(s, l)
  {}

  lemma ClosingReaches(s: State, x: Session, l: Lease, a: Agent, key: Token, digest: Token, at: Time)
    requires Inv(s) && Leased(s, x, l, a, at) && l.termination.InProgress() && AgentDone(a) && Drained(s, l.id)
            && key != 0 && digest != 0
    ensures var r, y := Completed(l, key, digest, at), SessionMoved(x, SessionReleased, at);
            Reaches(s, [Entry(LeaseBody(r)), Entry(SessionBody(y))], Owned(s, y, r, a)) && r.id == l.id && Closed(r)
  {
    var r, y := Completed(l, key, digest, at), SessionMoved(x, SessionReleased, at);
    ClosedFits(s, x, l, a, key, digest, at);
    DrainedReady(s, r, a);
    ClosedAppends(s, x, l, a, key, digest, at);
    InvAfterOwners(s, y, r, a);
    ReachesPair(s, Entry(LeaseBody(r)), Put(s, LeaseBody(r)), Entry(SessionBody(y)), Owned(s, y, r, a));
  }

  // ---------------------------------------------------------------- whole completion

  function AgentRetiring(a: Agent, at: Time): seq<Control>
    requires a.generations != []
  {
    AgentTrail(a, |a.generations| - 1, AgentRetirement(a.generations[|a.generations| - 1].state), at)
  }

  lemma RetireAgentIs(a: Agent, at: Time)
    requires ValidAgent(a)
    ensures a.generations != [] && RetireAgent(a, at) == Ok(AgentRetiring(a, at))
  {}

  lemma CompleteWrites(s: State, leaseId: Token, expected: nat, key: Token, digest: Token, env: Env)
    requires leaseId in s.leases ==> Hosting(s, leaseId, env.stamp)
    requires CompleteTermination(s, leaseId, expected, key, digest, env).Ok?
    ensures key != 0 && digest != 0 && leaseId in s.leases && s.leases[leaseId].termination.InProgress()
            && LeaseWorkDone(s, leaseId)
    ensures RetireTargets(s, TargetIdsOf(s, leaseId), env.stamp).Ok?
    ensures var l := s.leases[leaseId];
            && AgentOf(s, l).generations != []
            && CompleteTermination(s, leaseId, expected, key, digest, env).value ==
               RetireTargets(s, TargetIdsOf(s, leaseId), env.stamp).value +
               (AgentRetiring(AgentOf(s, l), env.stamp) + Closing(SessionOf(s, l), l, key, digest, env.stamp))
  {
    RetireAgentIs(AgentOf(s, s.leases[leaseId]), env.stamp);
  }

  /** What holds once the targets of the lease are retired. */
  lemma AfterTargets(s: State, m: State, leaseId: Token, at: Time)
    requires TargetsInv(s) && leaseId in s.leases && Hosting(s, leaseId, at) && LeaseWorkDone(s, leaseId)
    requires TargetsRetired(s, m, TargetIdsOf(s, leaseId), at)
    ensures Hosting(m, leaseId, at) && m.leases[leaseId] == s.leases[leaseId]
    ensures SessionOf(m, m.leases[leaseId]) == SessionOf(s, s.leases[leaseId])
            && AgentOf(m, m.leases[leaseId]) == AgentOf(s, s.leases[leaseId])
    ensures Drained(m, leaseId)
  {
    forall id | id in m.targets && m.targets[id].identity.leaseId == leaseId ensures TargetDone(m.targets[id]) {
      assert TargetInv(s, id);
      var t := s.targets[id];
      if id in TargetIdsOf(s, leaseId) {
        AlongKeeps(t, |t.generations| - 1, TargetRetirement(t.generations[|t.generations| - 1].state), at);
        RetiredDone(t, at);
      }
    }
  }

  lemma DrainedRetirable(m: State, leaseId: Token, at: Time)
    requires ExecsInv(m) && leaseId in m.leases && Hosting(m, leaseId, at) && Drained(m, leaseId)
    ensures var a := AgentOf(m, m.leases[leaseId]);
            Retirable(m, a, |a.generations| - 1, AgentRetirement(a.generations[|a.generations| - 1].state), at)
  {}

  lemma AgentRetiringReaches(m: State, leaseId: Token, at: Time)
    requires Inv(m) && leaseId in m.leases && Hosting(m, leaseId, at) && Drained(m, leaseId)
    ensures var a := AgentOf(m, m.leases[leaseId]);
            a.generations != [] && Reaches(m, AgentRetiring(a, at), Put(m, AgentBody(Retired(a, at))))
  {
    DrainedRetirable(m, leaseId, at);
    var a := AgentOf(m, m.leases[leaseId]);
    AgentTrailReaches(m, a, |a.generations| - 1, AgentRetirement(a.generations[|a.generations| - 1].state), at);
  }

  lemma {:induction false} AgentAlongElsewhere(a: Agent, i: nat, path: seq<AgentState>, at: Time)
    requires i < |a.generations|
    ensures forall k | 0 <= k < |a.generations| && k != i ::
            AgentAlong(a, i, path, at).generations[k] == a.generations[k]
    decreases |path|
  {
    if path != [] { AgentAlongElsewhere(AgentGenMoved(a, i, path[0], at), i, path[1..], at); }
  }

  lemma RetiredAgentDone(a: Agent, at: Time)
    requires ValidAgent(a) && forall i | 0 <= i < |a.generations| - 1 :: AgentTerminal(a.generations[i].state)
    ensures AgentDone(Retired(a, at)) && Retired(a, at).id == a.id
            && (Retired(a, at).updatedAt == at || Retired(a, at) == a)
  {
    var i := |a.generations| - 1;
    AgentAlongKeeps(a, i, AgentRetirement(a.generations[i].state), at);
    AgentAlongElsewhere(a, i, AgentRetirement(a.generations[i].state), at);
  }

  /** What holds once the agent is retired as well. */
  lemma AfterAgent(m: State, leaseId: Token, at: Time)
    requires leaseId in m.leases && Hosting(m, leaseId, at) && Drained(m, leaseId)
    requires var a := AgentOf(m, m.leases[leaseId]);
      var w := Put(m, AgentBody(Retired(a, at))); SessionsInv(w) && LeasesInv(w) && AgentsInv(w)
    ensures var l, a := m.leases[leaseId], AgentOf(m, m.leases[leaseId]);
            var w := Put(m, AgentBody(Retired(a, at)));
            Leased(w, SessionOf(m, l), l, Retired(a, at), at) && AgentDone(Retired(a, at)) && Drained(w, leaseId)
  {
    var l, a := m.leases[leaseId], AgentOf(m, m.leases[leaseId]);
    RetiredAgentDone(a, at);
    TripleOf(Put(m, AgentBody(Retired(a, at))), leaseId);
  }

  lemma DrainedReaches(m: State, leaseId: Token, key: Token, digest: Token, at: Time) returns (u: State)
    requires Inv(m) && leaseId in m.leases && Hosting(m, leaseId, at) && Drained(m, leaseId)
    requires m.leases[leaseId].termination.InProgress() && key != 0 && digest != 0
    ensures var l := m.leases[leaseId];
            AgentOf(m, l).generations != [] &&
            Reaches(m, AgentRetiring(AgentOf(m, l), at) + Closing(SessionOf(m, l), l, key, digest, at), u)
    ensures leaseId in u.leases && Closed(u.leases[leaseId])
  {
    var l := m.leases[leaseId];
    var x, a := SessionOf(m, l), AgentOf(m, l);
    AgentRetiringReaches(m, leaseId, at);
    var r := Retired(a, at);
    var w := Put(m, AgentBody(r));
    AfterAgent(m, leaseId, at);
    ClosingReaches(w, x, l, r, key, digest, at);
    u := Owned(w, SessionMoved(x, SessionReleased, at), Completed(l, key, digest, at), r);
    ReachesFurther(m, AgentRetiring(a, at), w, Closing(x, l, key, digest, at), u);
  }

  lemma CompleteReaches(s: State, leaseId: Token, expected: nat, key: Token, digest: Token, env: Env) returns (u: State)
    requires Inv(s) && AllSound(s, env.stamp) && (leaseId in s.leases ==> Hosting(s, leaseId, env.stamp))
    requires CompleteTermination(s, leaseId, expected, key, digest, env).Ok?
    ensures Reaches(s, CompleteTermination(s, leaseId, expected, key, digest, env).value, u)
    ensures leaseId in u.leases && Closed(u.leases[leaseId])
  {
    CompleteWrites(s, leaseId, expected, key, digest, env);
    var at := env.stamp;
    var m := RetireTargetsReaches(s, TargetIdsOf(s, leaseId), at);
    AfterTargets(s, m, leaseId, at);
    u := DrainedReaches(m, leaseId, key, digest, at);
    var l := s.leases[leaseId];
    var rest := AgentRetiring(AgentOf(s, l), at) + Closing(SessionOf(s, l), l, key, digest, at);
    ReachesFurther(s, RetireTargets(s, TargetIdsOf(s, leaseId), at).value, m, rest, u);
  }
}

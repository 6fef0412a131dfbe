/** The commands on execs commit only what replay accepts. */
module ExecCommands {
  import opened States
  import opened Records
  import opened Replay
  import opened Commands
  import opened Invariant
  import opened Landing
  import opened Owners
  import opened Chains
  import opened AgentCommands

  ghost predicate ExecFits(s: State, v: Exec) {
    && ValidExec(v) && LinkedExec(s, v) && ExecReady(s, v)
    && (if v.id in s.execs then ExecAdvances(s.execs[v.id], v) && ExecKept(s.execs[v.id], v) else v.revision == 1)
    && (!Open(s.leases[v.identity.leaseId]) ==> v.id in s.execs)
  }

  lemma ExecFitsLands(s: State, v: Exec)
    requires Inv(s) && ExecFits(s, v)
    ensures Lands(s, Entry(ExecBody(v)), Put(s, ExecBody(v)))
  {
    LandExec(s, v);
  }

  lemma ExecFitsAgreed(s: State, v: Exec)
    requires Inv(s) && ExecFits(s, v)
    ensures Agreed(s, [Entry(ExecBody(v))])
  {
    ExecFitsLands(s, v);
    Alone(s, Entry(ExecBody(v)), Put(s, ExecBody(v)));
  }

  /** A recorded exec with what the invariant says of it. */
  ghost predicate SoundExec(s: State, e: Exec, at: Time) {
    e.id in s.execs && s.execs[e.id] == e && ValidExec(e) && LinkedExec(s, e) && ExecReady(s, e) && e.updatedAt <= at
  }

  lemma SoundExecOf(s: State, id: Token, at: Time)
    requires ExecsInv(s) && id in s.execs && s.execs[id].updatedAt <= at
    ensures SoundExec(s, s.execs[id], at) && s.execs[id].id == id
  {}

  // ------------------------------------------------------------------- creation

  /** A recorded lease with the agent workspace it owns. */
  ghost predicate Hosted(s: State, leaseId: Token) {
    && leaseId in s.leases && s.leases[leaseId].identity.agentId in s.agents && LeaseInv(s, leaseId)
    && (var a := s.agents[s.leases[leaseId].identity.agentId];
        a.id == s.leases[leaseId].identity.agentId && ValidAgent(a))
  }

  lemma HostedLease(s: State, leaseId: Token)
    requires LeasesInv(s) && AgentsInv(s) && leaseId in s.leases
    ensures Hosted(s, leaseId)
  {}

  lemma CreateExecWrites(s: State, leaseId: Token, command: Token, env: Env)
    requires leaseId in s.leases ==> Hosted(s, leaseId)
    requires env.ids.exec != 0 && env.ids.exec !in s.execs && env.stamp != 0
    requires CreateExec(s, leaseId, command, env).Written?
    ensures var records := CreateExec(s, leaseId, command, env).records;
            |records| == 1 && records[0].body.ExecBody? && records == [Entry(ExecBody(records[0].body.exec))]
                && ExecFits(s, records[0].body.exec)
  {}

  lemma CreateExecAgrees(s: State, leaseId: Token, command: Token, env: Env)
    requires Inv(s) && (leaseId in s.leases ==> Hosted(s, leaseId))
    requires env.ids.exec != 0 && env.ids.exec !in s.execs && env.stamp != 0
    ensures Agrees(s, CreateExec(s, leaseId, command, env))
  {
    if CreateExec(s, leaseId, command, env).Written? {
      CreateExecWrites(s, leaseId, command, env);
      ExecFitsAgreed(s, CreateExec(s, leaseId, command, env).records[0].body.exec);
    }
  }

  // ------------------------------------------------------------------ transition

  function ExecMoved(e: Exec, state: ExecState, at: Time): Exec {
    e.(state := state, revision := e.revision + 1, updatedAt := at)
  }

  lemma ExecMovedFits(s: State, e: Exec, state: ExecState, at: Time)
    requires SoundExec(s, e, at) && ExecStep(e.state, state) && !ExecTerminal(state)
    ensures ExecFits(s, ExecMoved(e, state, at))
  {}

  /** The agent of an exec that starts running, marked running. */
  function Started(s: State, e: Exec, at: Time): Agent
    requires e.identity.agentId in s.agents
            && 0 < e.identity.agentGeneration <= |s.agents[e.identity.agentId].generations|
  {
    AgentGenMoved(s.agents[e.identity.agentId], e.identity.agentGeneration - 1, AgentRunning, at)
  }

  lemma TransitionExecWrites(s: State, id: Token, expected: nat, state: ExecState, env: Env)
    requires id in s.execs ==> SoundExec(s, s.execs[id], env.stamp)
    requires id in s.execs ==> ValidAgent(s.agents[s.execs[id].identity.agentId])
    requires TransitionExec(s, id, expected, state, env).Written?
    ensures id in s.execs && ExecStep(s.execs[id].state, state) && !ExecTerminal(state)
    ensures var e := s.execs[id];
            var records := TransitionExec(s, id, expected, state, env).records;
            var gens := s.agents[e.identity.agentId].generations;
            || records == [Entry(ExecBody(ExecMoved(e, state, env.stamp)))]
            || (&& gens[e.identity.agentGeneration - 1].state.AgentReady?
                && records == [Entry(AgentBody(Started(s, e, env.stamp))),
                    Entry(ExecBody(ExecMoved(e, state, env.stamp)))])
  {}

  /** An exec about to run on an agent that is ready. */
  ghost predicate Starting(s: State, e: Exec, state: ExecState, at: Time) {
    && SoundExec(s, e, at) && Kept(s, s.agents[e.identity.agentId], at)
    && s.agents[e.identity.agentId].generations[e.identity.agentGeneration - 1].state.AgentReady?
    && ExecStep(e.state, state) && !ExecTerminal(state)
  }

  lemma StartingRevises(s: State, e: Exec, state: ExecState, at: Time)
    requires Starting(s, e, state, at)
    ensures AgentRevises(s, Started(s, e, at), at)
    ensures Put(s, AgentBody(Started(s, e, at))).execs == s.execs
  {}

  lemma StillFits(m: State, e: Exec, state: ExecState, at: Time)
    requires ExecsInv(m) && e.id in m.execs && m.execs[e.id] == e && e.updatedAt <= at && ExecStep(e.state, state)
            && !ExecTerminal(state)
    ensures ExecFits(m, ExecMoved(e, state, at))
  {}

  lemma StartingAgreed(s: State, e: Exec, state: ExecState, at: Time)
    requires Inv(s) && Starting(s, e, state, at)
    ensures Agreed(s, [Entry(AgentBody(Started(s, e, at))), Entry(ExecBody(ExecMoved(e, state, at)))])
  {
    var a, v := Started(s, e, at), ExecMoved(e, state, at);
    var m := Put(s, AgentBody(a));
    StartingRevises(s, e, state, at);
    AgentRevisionLands(s, a, at);
    StillFits(m, e, state, at);
    ExecFitsLands(m, v);
    ReachesTwice(s, Entry(AgentBody(a)), m, Entry(ExecBody(v)), Put(m, ExecBody(v)));
    ReachedAgreed(s, [Entry(AgentBody(a)), Entry(ExecBody(v))], Put(m, ExecBody(v)));
  }

  lemma TransitionExecAgrees(s: State, id: Token, expected: nat, state: ExecState, env: Env)
    requires Inv(s)
    requires id in s.execs ==> SoundExec(s, s.execs[id], env.stamp)
    requires id in s.execs ==> Kept(s, s.agents[s.execs[id].identity.agentId], env.stamp)
    ensures Agrees(s, TransitionExec(s, id, expected, state, env))
  {
    if TransitionExec(s, id, expected, state, env).Written? {
      var e := s.execs[id];
      TransitionExecWrites(s, id, expected, state, env);
      if TransitionExec(s, id, expected, state, env).records == [Entry(ExecBody(ExecMoved(e, state, env.stamp)))] {
        ExecMovedFits(s, e, state, env.stamp);
        ExecFitsAgreed(s, ExecMoved(e, state, env.stamp));
      } else {
        StartingAgreed(s, e, state, env.stamp);
      }
    }
  }

  // ---------------------------------------------------------------- finalization

  /** Incidents that may be attached to an exec. */
  ghost predicate ExecAttachable(s: State, e: Exec, incidentIds: seq<Token>) {
    0 !in incidentIds && forall k | 0 <= k < |incidentIds| :: LinkedExecIncident(s, e, incidentIds[k])
  }

  function ExecWith(e: Exec, state: ExecState, outcome: ExecOutcome, incidentIds: seq<Token>, at: Time): Exec {
    e.(state := state, revision := e.revision + 1, updatedAt := at, outcome := outcome,
        incidentIds := Merged(e.incidentIds, incidentIds))
  }

  lemma ExecWithLinked(s: State, e: Exec, state: ExecState, outcome: ExecOutcome, incidentIds: seq<Token>, at: Time)
    requires LinkedExec(s, e) && ExecAttachable(s, e, incidentIds)
    ensures LinkedExec(s, ExecWith(e, state, outcome, incidentIds, at))
  {
    var v := ExecWith(e, state, outcome, incidentIds, at);
    forall k | 0 <= k < |v.incidentIds| ensures LinkedExecIncident(s, v, v.incidentIds[k]) {
      var i := v.incidentIds[k];
      assert i in v.incidentIds;
      if i in e.incidentIds {
        var j :| 0 <= j < |e.incidentIds| && e.incidentIds[j] == i;
        assert LinkedExecIncident(s, e, e.incidentIds[j]);
      } else {
        var j :| 0 <= j < |incidentIds| && incidentIds[j] == i;
        assert LinkedExecIncident(s, e, incidentIds[j]);
      }
    }
  }

  lemma ExecWithFits(s: State, e: Exec, state: ExecState, outcome: ExecOutcome, incidentIds: seq<Token>, at: Time)
    requires SoundExec(s, e, at) && ExecAttachable(s, e, incidentIds)
    requires if ExecTerminal(e.state) then state == e.state && outcome == e.outcome
            else state == e.state || ExecStep(e.state, state)
    requires state.ExecCompleted? ==> outcome.exitCode == Some(0) && outcome.cleanupConfirmed
    ensures ExecFits(s, ExecWith(e, state, outcome, incidentIds, at))
  {
    ExecWithLinked(s, e, state, outcome, incidentIds, at);
  }

  lemma FinalizeExecWrites(s: State, id: Token, expected: nat, state: ExecState, outcome: ExecOutcome,
      incidentIds: seq<Token>, env: Env)
    requires FinalizeExec(s, id, expected, state, outcome, incidentIds, env).Written?
    ensures id in s.execs && ExecStep(s.execs[id].state, state) && 0 !in incidentIds
    ensures forall k | 0 <= k < |incidentIds| ::
            incidentIds[k] in s.incidents && ExecIncidentMatches(s, s.execs[id], incidentIds[k])
    ensures var e := s.execs[id];
            var kept := if outcome.exitCode.Some? then outcome else outcome.(exitCode := e.outcome.exitCode);
            && (state.ExecCompleted? ==> kept.exitCode == Some(0) && kept.cleanupConfirmed)
            && FinalizeExec(s, id, expected, state, outcome, incidentIds, env).records ==
               [Entry(ExecBody(ExecWith(e, state, kept, incidentIds, env.stamp)))]
  {}

  lemma MatchingAttachable(s: State, e: Exec, incidentIds: seq<Token>)
    requires e.id != 0 && e.id in s.execs && s.execs[e.id] == e && 0 !in incidentIds && IncidentsInv(s)
    requires forall k | 0 <= k < |incidentIds| ::
            incidentIds[k] in s.incidents && ExecIncidentMatches(s, e, incidentIds[k])
    ensures ExecAttachable(s, e, incidentIds)
  {}

  lemma FinalizeExecFits(s: State, id: Token, expected: nat, state: ExecState, outcome: ExecOutcome,
      incidentIds: seq<Token>, env: Env)
    requires IncidentsInv(s) && (id in s.execs ==> SoundExec(s, s.execs[id], env.stamp))
    requires FinalizeExec(s, id, expected, state, outcome, incidentIds, env).Written?
    ensures var records := FinalizeExec(s, id, expected, state, outcome, incidentIds, env).records;
            |records| == 1 && records[0].body.ExecBody? && records == [Entry(ExecBody(records[0].body.exec))]
                && ExecFits(s, records[0].body.exec)
  {
    FinalizeExecWrites(s, id, expected, state, outcome, incidentIds, env);
    var e := s.execs[id];
    var kept := if outcome.exitCode.Some? then outcome else outcome.(exitCode := e.outcome.exitCode);
    MatchingAttachable(s, e, incidentIds);
    ExecWithFits(s, e, state, kept, incidentIds, env.stamp);
  }

  lemma FinalizeExecAgrees(s: State, id: Token, expected: nat, state: ExecState, outcome: ExecOutcome,
      incidentIds: seq<Token>, env: Env)
    requires Inv(s) && (id in s.execs ==> SoundExec(s, s.execs[id], env.stamp))
    ensures Agrees(s, FinalizeExec(s, id, expected, state, outcome, incidentIds, env))
  {
    if FinalizeExec(s, id, expected, state, outcome, incidentIds, env).Written? {
      FinalizeExecFits(s, id, expected, state, outcome, incidentIds, env);
      ExecFitsAgreed(s, FinalizeExec(s, id, expected, state, outcome, incidentIds, env).records[0].body.exec);
    }
  }
}

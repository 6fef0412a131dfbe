/** Recording, linking, sealing and moving incidents commits only what replay accepts. */
module IncidentCommands {
  import opened States
  import opened Records
  import opened Replay
  import opened Commands
  import opened Invariant
  import opened Landing
  import opened Edits
  import opened Chains
  import opened TargetCommands
  import opened ExecCommands

  ghost predicate IncidentFits(s: State, v: Incident) {
    && ValidIncident(v) && LinkedIncident(s, v.identity)
    && (if v.id in s.incidents then IncidentAdvances(s.incidents[v.id], v) else v.revision == 1)
  }

  lemma IncidentFitsLands(s: State, v: Incident)
    requires Inv(s) && IncidentFits(s, v)
    ensures Lands(s, Entry(IncidentBody(v)), Put(s, IncidentBody(v)))
  {
    LandIncident(s, v);
  }

  lemma IncidentFitsAgreed(s: State, v: Incident)
    requires Inv(s) && IncidentFits(s, v)
    ensures Agreed(s, [Entry(IncidentBody(v))])
  {
    IncidentFitsLands(s, v);
    Alone(s, Entry(IncidentBody(v)), Put(s, IncidentBody(v)));
  }

  ghost predicate SoundIncident(s: State, v: Incident, at: Time) {
    v.id in s.incidents && s.incidents[v.id] == v && ValidIncident(v) && LinkedIncident(s, v.identity)
        && v.updatedAt <= at
  }

  lemma SoundIncidentOf(s: State, id: Token, at: Time)
    requires IncidentsInv(s) && id in s.incidents && s.incidents[id].updatedAt <= at
    ensures SoundIncident(s, s.incidents[id], at) && s.incidents[id].id == id
  {}

  // ------------------------------------------------------------------ transition

  lemma TransitionIncidentWrites(s: State, id: Token, expected: nat, state: IncidentState, actions: set<Action>,
      acknowledgements: set<Token>, completion: bool, env: Env)
    requires id in s.incidents ==> SoundIncident(s, s.incidents[id], env.stamp)
    requires TransitionIncident(s, id, expected, state, actions, acknowledgements, completion, env).Written?
    ensures var records :=
            TransitionIncident(s, id, expected, state, actions, acknowledgements, completion, env).records;
            && |records| == 1 && records[0].body.IncidentBody?
            && records == [Entry(IncidentBody(records[0].body.incident))]
            && IncidentFits(s, records[0].body.incident)
  {}

  lemma TransitionIncidentAgrees(s: State, id: Token, expected: nat, state: IncidentState, actions: set<Action>,
      acknowledgements: set<Token>, completion: bool, env: Env)
    requires Inv(s) && (id in s.incidents ==> SoundIncident(s, s.incidents[id], env.stamp))
    ensures Agrees(s, TransitionIncident(s, id, expected, state, actions, acknowledgements, completion, env))
  {
    if TransitionIncident(s, id, expected, state, actions, acknowledgements, completion, env).Written? {
      TransitionIncidentWrites(s, id, expected, state, actions, acknowledgements, completion, env);
      IncidentFitsAgreed(s,
          TransitionIncident(s, id, expected, state, actions, acknowledgements, completion,
          env).records[0].body.incident);
    }
  }

  // ------------------------------------------------------------- links to the work

  /** A recorded incident whose target can take a link to it. */
  ghost predicate Linkable(s: State, v: Incident, at: Time) {
    && v.id != 0 && v.id in s.incidents && s.incidents[v.id] == v && LinkedIncident(s, v.identity)
    && (v.identity.runId != 0 ==>
          && v.identity.targetId != 0 && Sound(s, s.targets[v.identity.targetId], at)
          && s.targets[v.identity.targetId].id == v.identity.targetId)
  }

  /** The run named by a recorded incident takes a link to it. */
  lemma RunLinkRevises(s: State, v: Incident, at: Time)
    requires Linkable(s, v, at) && v.identity.runId != 0
    ensures |RunLink(s, v, at)| == 1 && RunLink(s, v, at)[0].body.TargetBody?
    ensures var w := RunLink(s, v, at)[0].body.target; RunLink(s, v, at) == [Entry(TargetBody(w))] && Revises(s, w, at)
    ensures var u := Put(s, TargetBody(RunLink(s, v, at)[0].body.target));
            u.execs == s.execs && u.incidents == s.incidents
  {
    var t := s.targets[v.identity.targetId];
    var k := RunIndex(t.runs, v.identity.runId);
    assert ValidRun(t, t.runs[k]);
    MergedLinks(s, t, t.runs[k], [v.id]);
    RunRevises(s, t, k, t.runs[k].(incidentIds := Merged(t.runs[k].incidentIds, [v.id])), at);
  }

  lemma RunLinkReaches(s: State, v: Incident, at: Time) returns (u: State)
    requires Inv(s) && Linkable(s, v, at)
    ensures Reaches(s, RunLink(s, v, at), u) && u.execs == s.execs && u.incidents == s.incidents
  {
    if v.identity.runId == 0 {
      ReachesSelf(s);
      u := s;
    } else {
      RunLinkRevises(s, v, at);
      var w := RunLink(s, v, at)[0].body.target;
      u := Put(s, TargetBody(w));
      RevisionLands(s, w, at);
      ReachesOnce(s, Entry(TargetBody(w)), u);
    }
  }

  lemma ExecLinkFits(s: State, v: Incident, at: Time)
    requires v.id != 0 && v.id in s.incidents && s.incidents[v.id] == v && LinkedIncident(s, v.identity)
    requires v.identity.execId != 0 && SoundExec(s, s.execs[v.identity.execId], at)
    requires s.execs[v.identity.execId].id == v.identity.execId
    ensures |ExecLink(s, v, at)| == 1 && ExecLink(s, v, at)[0].body.ExecBody?
    ensures var w := ExecLink(s, v, at)[0].body.exec; ExecLink(s, v, at) == [Entry(ExecBody(w))] && ExecFits(s, w)
  {
    var e := s.execs[v.identity.execId];
    assert LinkedExecIncident(s, e, v.id);
    ExecWithFits(s, e, e.state, e.outcome, [v.id], at);
  }

  lemma ExecLinkReaches(s: State, v: Incident, at: Time) returns (u: State)
    requires Inv(s) && v.id != 0 && v.id in s.incidents && s.incidents[v.id] == v && LinkedIncident(s, v.identity)
    requires v.identity.execId != 0 ==> s.execs[v.identity.execId].updatedAt <= at
    ensures Reaches(s, ExecLink(s, v, at), u)
  {
    if v.identity.execId == 0 {
      ReachesSelf(s);
      u := s;
    } else {
      SoundExecOf(s, v.identity.execId, at);
      ExecLinkFits(s, v, at);
      var w := ExecLink(s, v, at)[0].body.exec;
      u := Put(s, ExecBody(w));
      ExecFitsLands(s, w);
      ReachesOnce(s, Entry(ExecBody(w)), u);
    }
  }

  // -------------------------------------------------------------------- creation

  /** What the invariant says of the records that a new incident names. */
  ghost predicate Named(s: State, i: IncidentIdentity, at: Time) {
    && (i.leaseId in s.leases ==> LinkedLease(s, s.leases[i.leaseId]) && s.leases[i.leaseId].id == i.leaseId)
    && (i.agentId in s.agents ==> ValidAgent(s.agents[i.agentId]))
    && (i.targetId in s.targets ==>
          && Sound(s, s.targets[i.targetId], at) && s.targets[i.targetId].id == i.targetId
          && LinkedTarget(s, s.targets[i.targetId]))
    && (i.execId in s.execs ==> s.execs[i.execId].updatedAt <= at)
  }

  lemma NamedRecords(s: State, i: IncidentIdentity, at: Time)
    requires LeasesInv(s) && AgentsInv(s) && TargetsInv(s) && Before(s, at)
    ensures Named(s, i, at)
  {
    if i.leaseId in s.leases { assert LeaseInv(s, i.leaseId); }
    if i.agentId in s.agents { assert AgentInv(s, i.agentId); }
    if i.targetId in s.targets { assert TargetInv(s, i.targetId); }
  }

  lemma CreateIncidentWrites(s: State, wanted: IncidentIdentity, evidence: Evidence, env: Env)
    requires Named(s, wanted, env.stamp) && env.ids.incident != 0 && env.ids.incident !in s.incidents && env.stamp != 0
    requires CreateIncident(s, wanted, evidence, env).Written?
    ensures var v := Incident(env.ids.incident, wanted.(occurredAt := env.stamp), evidence, {}, {}, IncidentOpen, 1,
            env.stamp);
            && IncidentFits(s, v) && (v.identity.runId != 0 ==> v.identity.targetId != 0)
            && CreateIncident(s, wanted, evidence, env).records ==
               [Entry(IncidentBody(v))] + RunLink(s, v, env.stamp) + ExecLink(s, v, env.stamp)
  {
    var i := wanted;
    if i.agentId != 0 && i.agentGeneration != 0 {
      assert HasAgentGen(s.agents[i.agentId], i.agentGeneration);
    }
    if i.targetId != 0 && i.targetGeneration != 0 {
      assert HasTargetGen(s.targets[i.targetId], i.targetGeneration);
    }
  }

  lemma LinksAfterRecording(s: State, v: Incident, at: Time)
    requires v.id !in s.incidents && v.id != 0 && LinkedIncident(s, v.identity) && Named(s, v.identity, at)
    requires v.identity.runId != 0 ==> v.identity.targetId != 0
    ensures var m := Put(s, IncidentBody(v));
            Linkable(m, v, at) && m.execs == s.execs && RunLink(m, v, at) == RunLink(s, v, at)
  {}

  lemma RecordingReaches(s: State, v: Incident, at: Time) returns (u: State)
    requires Inv(s) && IncidentFits(s, v) && v.id !in s.incidents && Named(s, v.identity, at)
    requires v.identity.runId != 0 ==> v.identity.targetId != 0
    ensures Reaches(s, [Entry(IncidentBody(v))] + RunLink(s, v, at), u)
    ensures u.execs == s.execs && v.id in u.incidents && u.incidents[v.id] == v
  {
    IncidentFitsLands(s, v);
    LinksAfterRecording(s, v, at);
    u := RunLinkFurther(s, Put(s, IncidentBody(v)), v, at);
  }

  lemma RunLinkFurther(s: State, m: State, v: Incident, at: Time) returns (u: State)
    requires Lands(s, Entry(IncidentBody(v)), m) && Linkable(m, v, at)
    ensures Reaches(s, [Entry(IncidentBody(v))] + RunLink(m, v, at), u)
    ensures u.execs == m.execs && u.incidents == m.incidents
  {
    u := RunLinkReaches(m, v, at);
    ReachesAfter(s, Entry(IncidentBody(v)), m, RunLink(m, v, at), u);
  }

  lemma RecordedLinked(u: State, v: Incident)
    requires IncidentsInv(u) && v.id in u.incidents && u.incidents[v.id] == v
    ensures LinkedIncident(u, v.identity)
  {}

  lemma SameExecLink(s: State, u: State, v: Incident, at: Time)
    requires u.execs == s.execs && (v.identity.execId != 0 ==> v.identity.execId in s.execs)
    ensures ExecLink(u, v, at) == ExecLink(s, v, at)
  {}

  lemma LinkingReaches(s: State, v: Incident, at: Time) returns (u: State)
    requires Inv(s) && IncidentFits(s, v) && v.id !in s.incidents && Named(s, v.identity, at)
    requires v.identity.runId != 0 ==> v.identity.targetId != 0
    ensures Reaches(s, [Entry(IncidentBody(v))] + RunLink(s, v, at) + ExecLink(s, v, at), u)
  {
    var m := RecordingReaches(s, v, at);
    RecordedLinked(m, v);
    SameExecLink(s, m, v, at);
    u := ExecLinkReaches(m, v, at);
    ReachesFurther(s, [Entry(IncidentBody(v))] + RunLink(s, v, at), m, ExecLink(m, v, at), u);
  }

  lemma CreateIncidentAgrees(s: State, wanted: IncidentIdentity, evidence: Evidence, env: Env)
    requires Inv(s) && Named(s, wanted, env.stamp) && env.ids.incident != 0 && env.ids.incident !in s.incidents
            && env.stamp != 0
    ensures Agrees(s, CreateIncident(s, wanted, evidence, env))
  {
    if CreateIncident(s, wanted, evidence, env).Written? {
      CreateIncidentWrites(s, wanted, evidence, env);
      var v := Incident(env.ids.incident, wanted.(occurredAt := env.stamp), evidence, {}, {}, IncidentOpen, 1,
          env.stamp);
      var u := LinkingReaches(s, v, env.stamp);
      ReachedAgreed(s, CreateIncident(s, wanted, evidence, env).records, u);
    }
  }
}

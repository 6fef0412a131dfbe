/** The commands that quarantine, create, extend or retire a target commit only what
    replay accepts. */
module TargetGrowth {
  import opened States
  import opened Records
  import opened Replay
  import opened Commands
  import opened Invariant
  import opened Landing
  import opened Edits
  import opened Chains
  import opened TargetCommands

  // ----------------------------------------------------------------- quarantine

  lemma QuarantinedRevises(s: State, t: Target, i: nat, at: Time)
    requires Sound(s, t, at) && i < |t.generations| && TargetStep(t.generations[i].state, TargetQuarantined)
    ensures Revises(s, Quarantined(t, i, at), at)
  {}

  lemma QuarantineTargetWrites(s: State, id: Token, expected: nat, evidenceTarget: Token, evidenceGeneration: nat,
      env: Env)
    requires QuarantineTarget(s, id, expected, evidenceTarget, evidenceGeneration, env).Written?
    ensures id in s.targets
    ensures var t, i := s.targets[id], TargetGenIndex(s.targets[id].generations, s.targets[id].current);
            var records := QuarantineTarget(s, id, expected, evidenceTarget, evidenceGeneration, env).records;
            && i < |t.generations|
            && (if t.generations[i].state.TargetQuarantined? then records == []
                else
                  && TargetStep(t.generations[i].state, TargetQuarantined)
                  && records == [Entry(TargetBody(Quarantined(t, i, env.stamp)))])
  {}

  lemma QuarantineTargetAgrees(s: State, id: Token, expected: nat, evidenceTarget: Token, evidenceGeneration: nat,
      env: Env)
    requires Inv(s) && (id in s.targets ==> Sound(s, s.targets[id], env.stamp))
    ensures Agrees(s, QuarantineTarget(s, id, expected, evidenceTarget, evidenceGeneration, env))
  {
    if QuarantineTarget(s, id, expected, evidenceTarget, evidenceGeneration, env).Written? {
      QuarantineTargetWrites(s, id, expected, evidenceTarget, evidenceGeneration, env);
      var t, i := s.targets[id], TargetGenIndex(s.targets[id].generations, s.targets[id].current);
      if t.generations[i].state.TargetQuarantined? {
        NothingAgreed(s);
      } else {
        QuarantinedRevises(s, t, i, env.stamp);
        RevisionAgreed(s, Quarantined(t, i, env.stamp), env.stamp);
      }
    }
  }

  // --------------------------------------------------------------------- growth

  /** A recorded target together with what the invariant says of it. */
  ghost predicate Whole(s: State, t: Target, at: Time) {
    Sound(s, t, at) && LinkedTarget(s, t) && TargetShape(t)
  }

  lemma WholeTarget(s: State, id: Token, at: Time)
    requires TargetsInv(s) && Before(s, at) && id in s.targets
    ensures Whole(s, s.targets[id], at) && s.targets[id].id == id
  {}

  ghost predicate Grows(s: State, v: Target, at: Time) {
    && v.id in s.targets && Sound(s, s.targets[v.id], at) && Edited(s.targets[v.id], v, at)
    && ValidTarget(v) && LinkedTarget(s, v) && TargetShape(v)
  }

  lemma GrowthLands(s: State, v: Target, at: Time)
    requires Inv(s) && Grows(s, v, at) && Open(s.leases[v.identity.leaseId])
    ensures Lands(s, Entry(TargetBody(v)), Put(s, TargetBody(v)))
  {
    EditedMoves(s.targets[v.id], v, at);
    LandGrowth(s, v);
  }

  lemma GrowthAgreed(s: State, v: Target, at: Time)
    requires Inv(s) && Grows(s, v, at) && Open(s.leases[v.identity.leaseId])
    ensures Agreed(s, [Entry(TargetBody(v))])
  {
    GrowthLands(s, v, at);
    Alone(s, Entry(TargetBody(v)), Put(s, TargetBody(v)));
  }

  function WithNewRun(t: Target, r: Run, at: Time): Target { Touched(t.(runs := t.runs + [r]), at) }

  ghost predicate FitsRun(s: State, t: Target, r: Run, at: Time) {
    && r.id != 0 && (forall k | 0 <= k < |t.runs| :: t.runs[k].id != r.id && t.runs[k].identity.generation != t.current)
    && r.identity.generation == t.current
    && r.identity.agentId in s.agents && r.identity.agentId != 0 && r.identity.materialization != 0
    && s.agents[r.identity.agentId].sessionId == t.identity.sessionId
    && HasAgentGen(s.agents[r.identity.agentId], r.identity.agentGeneration)
    && r == Run(r.id, r.identity, Binding(0, 0), RunRequested, 1, Bundle(0, 0, 0), [], at) && r.identity.createdAt == at
  }

  lemma NewRunEdited(s: State, t: Target, r: Run, at: Time)
    requires Sound(s, t, at)
    ensures Edited(t, WithNewRun(t, r, at), at)
  {}

  lemma NewRunValid(s: State, t: Target, r: Run, at: Time)
    requires Sound(s, t, at) && FitsRun(s, t, r, at)
    ensures ValidTarget(WithNewRun(t, r, at))
  {
    var v := WithNewRun(t, r, at);
    NewRunEdited(s, t, r, at);
    EditedGensValid(t, v, at);
    EditedRunsValid(t, v, at);
    EditedOperationsValid(t, v, at);
    assert ValidRun(v, r);
  }

  lemma NewRunGrows(s: State, t: Target, r: Run, at: Time)
    requires Whole(s, t, at) && FitsRun(s, t, r, at)
    ensures Grows(s, WithNewRun(t, r, at), at)
  {
    var v := WithNewRun(t, r, at);
    NewRunEdited(s, t, r, at);
    NewRunValid(s, t, r, at);
    EditedRunsLinked(s, t, v, at);
  }

  function WithNewOperation(t: Target, o: Operation, at: Time): Target {
    Touched(t.(operations := t.operations + [o]), at)
  }

  ghost predicate FitsOperation(t: Target, o: Operation, at: Time) {
    && o.id != 0 && (forall k | 0 <= k < |t.operations| :: t.operations[k].id != o.id)
    && o.identity.description != 0 && o.identity.runId != 0 && HasRun(t.runs, o.identity.runId)
    && t.runs[RunIndex(t.runs, o.identity.runId)].identity.generation == o.identity.generation
    && o.revision == 1 && o.identity.createdAt == at == o.updatedAt
  }

  lemma NewOperationEdited(s: State, t: Target, o: Operation, at: Time)
    requires Sound(s, t, at)
    ensures Edited(t, WithNewOperation(t, o, at), at)
  {
    assert forall k | 0 <= k < |t.runs| :: ValidRun(t, t.runs[k]);
  }

  lemma NewOperationValid(s: State, t: Target, o: Operation, at: Time)
    requires Sound(s, t, at) && FitsOperation(t, o, at)
    ensures ValidTarget(WithNewOperation(t, o, at))
  {
    var v := WithNewOperation(t, o, at);
    NewOperationEdited(s, t, o, at);
    EditedGensValid(t, v, at);
    EditedRunsValid(t, v, at);
    EditedOperationsValid(t, v, at);
    assert ValidOperation(v, o);
  }

  lemma NewOperationGrows(s: State, t: Target, o: Operation, at: Time)
    requires Whole(s, t, at) && FitsOperation(t, o, at)
    ensures Grows(s, WithNewOperation(t, o, at), at)
  {
    NewOperationEdited(s, t, o, at);
    NewOperationValid(s, t, o, at);
    EditedRunsLinked(s, t, WithNewOperation(t, o, at), at);
  }

  lemma NextGenEdited(s: State, t: Target, gens: seq<TargetGen>, incidentId: Token, at: Time)
    requires Sound(s, t, at)
    requires |gens| == |t.generations| && forall k | 0 <= k < |gens| :: GenEdited(t.generations[k], gens[k], at)
    ensures gens != [] && Edited(t, NextTargetGen(t.(generations := gens), |gens| - 1, incidentId, at), at)
  {
    var v := NextTargetGen(t.(generations := gens), |gens| - 1, incidentId, at);
    assert forall k | 0 <= k < |t.runs| :: ValidRun(t, t.runs[k]);
    assert forall k | 0 <= k < |t.generations| :: GenEdited(t.generations[k], v.generations[k], at);
  }

  /** A next realization of a target whose current one has ended. */
  lemma NextGenGrows(s: State, t: Target, gens: seq<TargetGen>, incidentId: Token, at: Time)
    requires Whole(s, t, at)
    requires |gens| == |t.generations| && forall k | 0 <= k < |gens| :: GenEdited(t.generations[k], gens[k], at)
    requires TargetTerminal(gens[|gens| - 1].state)
    requires forall k | 0 <= k < |t.runs| :: t.runs[k].identity.generation == t.current ==> RunTerminal(t.runs[k].state)
    ensures Grows(s, NextTargetGen(t.(generations := gens), |gens| - 1, incidentId, at), at)
  {
    var v := NextTargetGen(t.(generations := gens), |gens| - 1, incidentId, at);
    NextGenEdited(s, t, gens, incidentId, at);
    NextGenValid(t, v, at);
    EditedRunsLinked(s, t, v, at);
    PastGensDone(t, gens, at);
  }

  lemma NextGenValid(t: Target, v: Target, at: Time)
    requires ValidTarget(t) && Edited(t, v, at) && |v.runs| == |t.runs| && |v.operations| == |t.operations|
    requires |v.generations| == |t.generations| + 1
    requires var n := |t.generations|;
      v.generations[n] == NewTargetGen(n + 1, t.generations[n - 1].identity.policy,
                                       t.generations[n - 1].identity.capability, n,
                                       v.generations[n].identity.recoveryIncident, at)
    ensures ValidTarget(v)
  {
    EditedGensValid(t, v, at);
    EditedRunsValid(t, v, at);
    EditedOperationsValid(t, v, at);
    EditedDistinct(t, v, at);
    assert v.runs[..|t.runs|] == v.runs && v.operations[..|t.operations|] == v.operations;
    assert ValidTargetGen(t, t.generations[|t.generations| - 1]);
  }

  lemma PastGensDone(t: Target, gens: seq<TargetGen>, at: Time)
    requires |gens| == |t.generations| && forall k | 0 <= k < |gens| :: GenEdited(t.generations[k], gens[k], at)
    requires TargetShape(t)
    ensures forall k | 0 <= k < |gens| - 1 :: TargetTerminal(gens[k].state)
  {}

  // ------------------------------------------------------------------- commands

  /** What an open lease under the invariant offers to a new run. */
  ghost predicate Serves(s: State, lease: Lease) {
    && lease.identity.agentId != 0 && lease.identity.agentId in s.agents
    && s.agents[lease.identity.agentId].sessionId == lease.identity.sessionId
    && HasAgentGen(s.agents[lease.identity.agentId], lease.agentGeneration)
  }

  lemma LeaseServes(s: State, leaseId: Token)
    requires LeasesInv(s) && leaseId in s.leases
    ensures Serves(s, s.leases[leaseId])
  {}

  lemma StartRunWrites(s: State, id: Token, materialization: Token, env: Env)
    requires id in s.targets ==> Sound(s, s.targets[id], env.stamp) && LinkedTarget(s, s.targets[id])
    requires id in s.targets ==> Serves(s, s.leases[s.targets[id].identity.leaseId])
    requires env.ids.run != 0 && forall k | id in s.targets && 0 <= k < |s.targets[id].runs| ::
            s.targets[id].runs[k].id != env.ids.run
    requires StartRun(s, id, materialization, env).Written?
    ensures id in s.targets && Open(s.leases[s.targets[id].identity.leaseId])
    ensures var records := StartRun(s, id, materialization, env).records;
            && |records| == 1 && records[0].body.TargetBody? && records[0].body.target.runs != []
            && var t, v := s.targets[id], records[0].body.target;
            && v == WithNewRun(t, v.runs[|v.runs| - 1], env.stamp)
            && FitsRun(s, t, v.runs[|v.runs| - 1], env.stamp) && records == [Entry(TargetBody(v))]
  {}

  lemma StartRunAgrees(s: State, id: Token, materialization: Token, env: Env)
    requires Inv(s) && (id in s.targets ==> Whole(s, s.targets[id], env.stamp))
    requires env.ids.run != 0 && forall k | id in s.targets && 0 <= k < |s.targets[id].runs| ::
            s.targets[id].runs[k].id != env.ids.run
    ensures Agrees(s, StartRun(s, id, materialization, env))
  {
    if StartRun(s, id, materialization, env).Written? {
      LeaseServes(s, s.targets[id].identity.leaseId);
      StartRunWrites(s, id, materialization, env);
      var v := StartRun(s, id, materialization, env).records[0].body.target;
      NewRunGrows(s, s.targets[id], v.runs[|v.runs| - 1], env.stamp);
      GrowthAgreed(s, v, env.stamp);
    }
  }

  lemma CreateOperationWrites(s: State, id: Token, runId: Token, description: Token, env: Env)
    requires id in s.targets ==> Sound(s, s.targets[id], env.stamp)
    requires env.ids.operation != 0
    requires forall k | id in s.targets && 0 <= k < |s.targets[id].operations| ::
            s.targets[id].operations[k].id != env.ids.operation
    requires CreateOperation(s, id, runId, description, env).Written?
    ensures id in s.targets && s.targets[id].identity.leaseId in s.leases
            && Open(s.leases[s.targets[id].identity.leaseId])
    ensures var records := CreateOperation(s, id, runId, description, env).records;
            && |records| == 1 && records[0].body.TargetBody? && records[0].body.target.operations != []
            && var t, v := s.targets[id], records[0].body.target;
            && v == WithNewOperation(t, v.operations[|v.operations| - 1], env.stamp)
            && FitsOperation(t, v.operations[|v.operations| - 1], env.stamp) && records == [Entry(TargetBody(v))]
  {}

  lemma CreateOperationAgrees(s: State, id: Token, runId: Token, description: Token, env: Env)
    requires Inv(s) && (id in s.targets ==> Whole(s, s.targets[id], env.stamp))
    requires env.ids.operation != 0
    requires forall k | id in s.targets && 0 <= k < |s.targets[id].operations| ::
            s.targets[id].operations[k].id != env.ids.operation
    ensures Agrees(s, CreateOperation(s, id, runId, description, env))
  {
    if CreateOperation(s, id, runId, description, env).Written? {
      CreateOperationWrites(s, id, runId, description, env);
      var v := CreateOperation(s, id, runId, description, env).records[0].body.target;
      NewOperationGrows(s, s.targets[id], v.operations[|v.operations| - 1], env.stamp);
      GrowthAgreed(s, v, env.stamp);
    }
  }

  lemma CurrentIsLast(t: Target)
    requires ValidTarget(t)
    ensures |t.generations| > 0 && TargetGenIndex(t.generations, t.current) == |t.generations| - 1
  {
    var n := |t.generations|;
    assert t.generations[n - 1].identity.generation == n;
    assert TargetGenIndex(t.generations, t.current) < n;
  }

  /** The generations once the current one has been sealed. */
  function SealedGens(t: Target, at: Time): seq<TargetGen>
    requires t.generations != []
  {
    var i := |t.generations| - 1;
    var g := t.generations[i];
    if g.state.TargetResettable? then
        t.generations[i := g.(state := TargetDestroyed, revision := g.revision + 1, updatedAt := at)]
    else t.generations
  }

  lemma ResetTargetWrites(s: State, id: Token, expected: nat, incidentId: Token, env: Env)
    requires id in s.targets ==> Sound(s, s.targets[id], env.stamp)
    requires ResetTarget(s, id, expected, incidentId, env).Written?
    ensures id in s.targets && s.targets[id].generations != [] && s.targets[id].identity.leaseId in s.leases
    ensures Open(s.leases[s.targets[id].identity.leaseId])
    ensures var t := s.targets[id];
            var gens := SealedGens(t, env.stamp);
            && (forall k | 0 <= k < |gens| :: GenEdited(t.generations[k], gens[k], env.stamp))
            && TargetTerminal(gens[|gens| - 1].state)
            && (forall k | 0 <= k < |t.runs| ::
                t.runs[k].identity.generation == t.current ==> RunTerminal(t.runs[k].state))
            && ResetTarget(s, id, expected, incidentId, env).records ==
               [Entry(TargetBody(NextTargetGen(t.(generations := gens), |gens| - 1, incidentId, env.stamp)))]
  {}

  lemma ResetTargetGrows(s: State, id: Token, expected: nat, incidentId: Token, env: Env) returns (v: Target)
    requires id in s.targets ==> Whole(s, s.targets[id], env.stamp)
    requires ResetTarget(s, id, expected, incidentId, env).Written?
    ensures ResetTarget(s, id, expected, incidentId, env).records == [Entry(TargetBody(v))]
    ensures Grows(s, v, env.stamp) && Open(s.leases[v.identity.leaseId])
  {
    ResetTargetWrites(s, id, expected, incidentId, env);
    var t := s.targets[id];
    var gens := SealedGens(t, env.stamp);
    v := NextTargetGen(t.(generations := gens), |gens| - 1, incidentId, env.stamp);
    NextGenGrows(s, t, gens, incidentId, env.stamp);
  }

  lemma ResetTargetAgrees(s: State, id: Token, expected: nat, incidentId: Token, env: Env)
    requires Inv(s) && (id in s.targets ==> Whole(s, s.targets[id], env.stamp))
    ensures Agrees(s, ResetTarget(s, id, expected, incidentId, env))
  {
    if ResetTarget(s, id, expected, incidentId, env).Written? {
      var v := ResetTargetGrows(s, id, expected, incidentId, env);
      GrowthAgreed(s, v, env.stamp);
    }
  }

  lemma CreateTargetWrites(s: State, leaseId: Token, key: Token, template: Token, kind: Token, policy: Token,
      capability: Token, env: Env)
    requires LeasesInv(s) && env.ids.target != 0 && env.stamp != 0
    requires CreateTarget(s, leaseId, key, template, kind, policy, capability, env).Written?
    ensures leaseId in s.leases && Open(s.leases[leaseId])
    ensures var records := CreateTarget(s, leaseId, key, template, kind, policy, capability, env).records;
            && |records| == 1 && records[0].body.TargetBody?
            && var v := records[0].body.target;
            && records == [Entry(TargetBody(v))] && v.id == env.ids.target && v.revision == 1
            && v.identity.leaseId == leaseId
            && ValidTarget(v) && LinkedTarget(s, v) && TargetShape(v)
  {
    assert LeaseInv(s, leaseId);
  }

  lemma CreateTargetAgrees(s: State, leaseId: Token, key: Token, template: Token, kind: Token, policy: Token,
      capability: Token, env: Env)
    requires Inv(s) && env.ids.target != 0 && env.ids.target !in s.targets && env.stamp != 0
    ensures Agrees(s, CreateTarget(s, leaseId, key, template, kind, policy, capability, env))
  {
    if CreateTarget(s, leaseId, key, template, kind, policy, capability, env).Written? {
      CreateTargetWrites(s, leaseId, key, template, kind, policy, capability, env);
      var v := CreateTarget(s, leaseId, key, template, kind, policy, capability, env).records[0].body.target;
      LandNewTarget(s, v);
      Alone(s, Entry(TargetBody(v)), Put(s, TargetBody(v)));
    }
  }

  // ----------------------------------------------------------- retirement trails

  /** Retiring a realization changes nothing else of the target. */
  lemma {:induction false} AlongKeeps(t: Target, i: nat, path: seq<TargetState>, at: Time)
    requires i < |t.generations|
    ensures var v := TargetAlong(t, i, path, at);
            && v.id == t.id && v.identity == t.identity && v.current == t.current && v.runs == t.runs
            && v.operations == t.operations
            && |v.generations| == |t.generations|
            && v.generations[i].state == (if path == [] then t.generations[i].state else path[|path| - 1])
            && (path == [] ==> v == t) && (path != [] ==> v.updatedAt == at)
    decreases |path|
  {
    if path != [] { AlongKeeps(TargetGenMoved(t, i, path[0], at), i, path[1..], at); }
  }

  lemma PutAgain(s: State, v: Target, w: Target)
    requires v.id == w.id
    ensures Put(Put(s, TargetBody(v)), TargetBody(w)) == Put(s, TargetBody(w))
  {}

  lemma PutSame(s: State, t: Target)
    requires t.id in s.targets && s.targets[t.id] == t
    ensures Put(s, TargetBody(t)) == s
  {}

  lemma TrailUnfolds(s: State, t: Target, i: nat, path: seq<TargetState>, at: Time)
    requires i < |t.generations| && path != []
    ensures var next := TargetGenMoved(t, i, path[0], at);
            var end := TargetAlong(next, i, path[1..], at);
            && TargetAlong(t, i, path, at) == end
            && TargetTrail(t, i, path, at) == [Entry(TargetBody(next))] + TargetTrail(next, i, path[1..], at)
            && Put(Put(s, TargetBody(next)), TargetBody(end)) == Put(s, TargetBody(end))
  {
    var next := TargetGenMoved(t, i, path[0], at);
    AlongKeeps(next, i, path[1..], at);
    PutAgain(s, next, TargetAlong(next, i, path[1..], at));
  }

  /** What lets a realization be retired along a path. */
  ghost predicate TargetRetirable(s: State, t: Target, i: nat, path: seq<TargetState>, at: Time) {
    Sound(s, t, at) && i < |t.generations| && LegalTargetPath(t.generations[i].state, path)
  }

  lemma TrailStep(s: State, t: Target, i: nat, path: seq<TargetState>, at: Time)
    requires TargetRetirable(s, t, i, path, at) && path != []
    ensures var next := TargetGenMoved(t, i, path[0], at);
            Revises(s, next, at) && TargetRetirable(Put(s, TargetBody(next)), next, i, path[1..], at)
  {}

  /** Retiring a realization, one legal state after the other. */
  lemma {:induction false} TrailReaches(s: State, t: Target, i: nat, path: seq<TargetState>, at: Time)
    requires Inv(s) && TargetRetirable(s, t, i, path, at)
    ensures Reaches(s, TargetTrail(t, i, path, at), Put(s, TargetBody(TargetAlong(t, i, path, at))))
    decreases |path|
  {
    if path == [] {
      PutSame(s, t);
      ReachesSelf(s);
    } else {
      var next := TargetGenMoved(t, i, path[0], at);
      var m := Put(s, TargetBody(next));
      TrailStep(s, t, i, path, at);
      RevisionLands(s, next, at);
      TrailReaches(m, next, i, path[1..], at);
      TrailUnfolds(s, t, i, path, at);
      ReachesAfter(s, Entry(TargetBody(next)), m, TargetTrail(next, i, path[1..], at),
                   Put(m, TargetBody(TargetAlong(next, i, path[1..], at))));
    }
  }
}

/** What a committed command has changed in a target, and that it has changed nothing
    else. */
module TargetEffects {
  import opened States
  import opened Records
  import opened Replay
  import opened Commands
  import opened Effects
  import opened TargetCommands
  import opened TargetGrowth

  /** Mutation is gated by the lease; only cleanup passes while it is terminating. */
  ghost predicate Admitted(s: State, t: Target, cleanup: bool, env: Env) {
    && t.identity.leaseId in s.leases
    && (LeaseAdmits(s.leases[t.identity.leaseId], env.guard)
        || (cleanup && s.leases[t.identity.leaseId].termination.InProgress()))
  }

  /** The target, as it was and as it is, and that nothing else has changed. */
  ghost predicate Revised(s: State, t: State, id: Token, cleanup: bool, env: Env) {
    && id in s.targets && OnlyTarget(s, t, id) && NextTarget(s.targets[id], t.targets[id], env.stamp)
    && Admitted(s, s.targets[id], cleanup, env)
  }

  /** Realizations are numbered up to the current one; runs and operations are told apart. */
  ghost predicate Numbered(t: Target) {
    && 1 <= t.current == |t.generations|
    && (forall k | 0 <= k < |t.generations| :: t.generations[k].identity.generation == k + 1)
    && DistinctRuns(t.runs) && DistinctOperations(t.operations)
  }

  ghost predicate TargetsFiled(s: State) {
    forall id | id in s.targets :: s.targets[id].id == id && Numbered(s.targets[id])
  }

  lemma GateTargetAdmits(s: State, id: Token, cleanup: bool, env: Env)
    requires GateTarget(s, id, cleanup, env).Ok?
    ensures id in s.targets && GateTarget(s, id, cleanup, env).value == s.targets[id]
            && Admitted(s, s.targets[id], cleanup, env)
  {}

  lemma PutRevised(s: State, v: Target, cleanup: bool, env: Env)
    requires v.id in s.targets && NextTarget(s.targets[v.id], v, env.stamp)
            && Admitted(s, s.targets[v.id], cleanup, env)
    ensures Revised(s, Folded(s, [Entry(TargetBody(v))]), v.id, cleanup, env)
            && Folded(s, [Entry(TargetBody(v))]).targets[v.id] == v
  {
    FoldedOne(s, Entry(TargetBody(v)));
  }

  // -------------------------------------------------------------------- realizations

  /** A first, unbound realization under an admitting lease. */
  ghost predicate CreatesTarget(s: State, t: State, leaseId: Token, key: Token, template: Token, kind: Token,
      policy: Token, capability: Token, env: Env)
  {
    && leaseId in s.leases && LeaseAdmits(s.leases[leaseId], env.guard) && OnlyTarget(s, t, env.ids.target)
    && var v := t.targets[env.ids.target];
    && v.id == env.ids.target && v.revision == 1 && v.current == 1 && v.runs == [] && v.operations == []
    && v.identity == TargetIdentity(s.leases[leaseId].identity.sessionId, leaseId, key, template, kind, env.stamp)
    && |v.generations| == 1
    && var g := v.generations[0];
    && g.state.TargetProvisioning? && g.binding.Empty() && g.revision == 1
    && g.identity == TargetGenIdentity(1, policy, capability, 0, 0, env.stamp)
  }

  lemma CreateTargetDoes(s: State, leaseId: Token, key: Token, template: Token, kind: Token, policy: Token,
      capability: Token, env: Env)
    requires CreateTarget(s, leaseId, key, template, kind, policy, capability, env).Written?
    ensures CreatesTarget(s, Folded(s, CreateTarget(s, leaseId, key, template, kind, policy, capability, env).records),
                          leaseId, key, template, kind, policy, capability, env)
  {
    FoldedOne(s, CreateTarget(s, leaseId, key, template, kind, policy, capability, env).records[0]);
  }

  /** One realization, named by its number, is replaced. */
  ghost predicate GenReplaced(p: Target, v: Target, generation: nat, at: Time) {
    && v.current == p.current && v.runs == p.runs && v.operations == p.operations
    && 1 <= generation && OnlyAt(p.generations, v.generations, generation - 1)
    && var g, h := p.generations[generation - 1], v.generations[generation - 1];
    h == g.(binding := h.binding, state := h.state, revision := g.revision + 1, updatedAt := at)
  }

  ghost predicate MovesGen(s: State, t: State, id: Token, generation: nat, state: TargetState, env: Env) {
    && Revised(s, t, id, false, env) && GenReplaced(s.targets[id], t.targets[id], generation, env.stamp)
    && var g, h := s.targets[id].generations[generation - 1], t.targets[id].generations[generation - 1];
    TargetStep(g.state, state) && h.state == state && h.binding == g.binding
  }

  lemma TransitionTargetGenDoes(s: State, id: Token, generation: nat, expected: nat, state: TargetState, env: Env)
    requires TargetsFiled(s)
    requires TransitionTargetGen(s, id, generation, expected, state, env).Written?
    ensures MovesGen(s, Folded(s, TransitionTargetGen(s, id, generation, expected, state, env).records), id,
            generation, state, env)
  {
    GateTargetAdmits(s, id, false, env);
    PutRevised(s, TransitionTargetGen(s, id, generation, expected, state, env).records[0].body.target, false, env);
  }

  ghost predicate BindsGen(s: State, t: State, id: Token, generation: nat, binding: Binding, env: Env) {
    && Revised(s, t, id, false, env) && GenReplaced(s.targets[id], t.targets[id], generation, env.stamp)
    && var g, h := s.targets[id].generations[generation - 1], t.targets[id].generations[generation - 1];
    && generation == s.targets[id].current && g.state.TargetProvisioning? && g.binding.Empty()
    && h.state == g.state && h.binding == binding && binding.Complete()
  }

  lemma BindTargetPlanDoes(s: State, id: Token, generation: nat, expected: nat, binding: Binding, env: Env)
    requires TargetsFiled(s)
    requires BindTargetPlan(s, id, generation, expected, binding, env).Written?
    ensures BindsGen(s, Folded(s, BindTargetPlan(s, id, generation, expected, binding, env).records), id, generation,
            binding, env)
  {
    GateTargetAdmits(s, id, false, env);
    PutRevised(s, BindTargetPlan(s, id, generation, expected, binding, env).records[0].body.target, false, env);
  }

  /** A next, unbound realization follows one that has ended, with the same policy and
      capability; the earlier ones stay as they are. */
  ghost predicate Succeeds(p: Target, v: Target, incidentId: Token, at: Time) {
    && p.current == |p.generations| >= 1 && v.current == p.current + 1 == |v.generations|
    && v.runs == p.runs && v.operations == p.operations
    && (forall k | 0 <= k < p.current - 1 :: v.generations[k] == p.generations[k])
    && TargetTerminal(v.generations[p.current - 1].state)
    && v.generations[p.current - 1].identity == p.generations[p.current - 1].identity
    && var last, g := p.generations[p.current - 1].identity, v.generations[p.current];
    && g.state.TargetProvisioning? && g.binding.Empty() && g.revision == 1
    && g.identity == TargetGenIdentity(p.current + 1, last.policy, last.capability, p.current, incidentId, at)
  }

  ghost predicate Resets(s: State, t: State, id: Token, incidentId: Token, env: Env) {
    && Revised(s, t, id, false, env) && Succeeds(s.targets[id], t.targets[id], incidentId, env.stamp)
    && (forall k | 0 <= k < |s.targets[id].runs|
        && s.targets[id].runs[k].identity.generation == s.targets[id].current ::
          RunTerminal(s.targets[id].runs[k].state))
  }

  lemma ResetTargetDoes(s: State, id: Token, expected: nat, incidentId: Token, env: Env)
    requires TargetsFiled(s)
    requires ResetTarget(s, id, expected, incidentId, env).Written?
    ensures Resets(s, Folded(s, ResetTarget(s, id, expected, incidentId, env).records), id, incidentId, env)
  {
    GateTargetAdmits(s, id, false, env);
    ResetTargetRecords(s, id, expected, incidentId, env);
    var t := s.targets[id];
    SealedSucceeds(t, incidentId, env.stamp);
    PutRevised(s, NextTargetGen(t.(generations := SealedGens(t, env.stamp)), |t.generations| - 1, incidentId,
        env.stamp), false, env);
  }

  lemma ResetTargetRecords(s: State, id: Token, expected: nat, incidentId: Token, env: Env)
    requires TargetsFiled(s) && ResetTarget(s, id, expected, incidentId, env).Written?
    ensures id in s.targets && s.targets[id].generations != [] && s.targets[id].id == id && Numbered(s.targets[id])
    ensures var t := s.targets[id];
            && (forall k | 0 <= k < |t.runs| && t.runs[k].identity.generation == t.current ::
                RunTerminal(t.runs[k].state))
            && TargetTerminal(SealedGens(t, env.stamp)[|t.generations| - 1].state)
            && ResetTarget(s, id, expected, incidentId, env).records ==
               [Entry(TargetBody(NextTargetGen(t.(generations := SealedGens(t, env.stamp)), |t.generations| - 1,
                   incidentId, env.stamp)))]
  {}

  lemma SealedSucceeds(t: Target, incidentId: Token, at: Time)
    requires Numbered(t) && TargetTerminal(SealedGens(t, at)[|t.generations| - 1].state)
    ensures var v := NextTargetGen(t.(generations := SealedGens(t, at)), |t.generations| - 1, incidentId, at);
            NextTarget(t, v, at) && Succeeds(t, v, incidentId, at)
  {}

  /** The current realization is quarantined, with its live runs, and its live operations
      are cancelled; finished work and other realizations stay as they are. */
  ghost predicate Contains(p: Target, v: Target, at: Time) {
    && v.current == p.current == |p.generations| == |v.generations| && |v.runs| == |p.runs|
    && |v.operations| == |p.operations|
    && (forall k | 0 <= k < |p.generations| ::
          v.generations[k] == if k == p.current - 1 then
            p.generations[k].(state := TargetQuarantined, revision := p.generations[k].revision + 1, updatedAt := at)
                else p.generations[k])
    && (forall k | 0 <= k < |p.runs| ::
          v.runs[k] == if p.runs[k].identity.generation == p.current && !RunTerminal(p.runs[k].state) then
            p.runs[k].(state := RunQuarantined, revision := p.runs[k].revision + 1, updatedAt := at) else p.runs[k])
    && (forall k | 0 <= k < |p.operations| ::
          v.operations[k] == if p.operations[k].identity.generation == p.current
              && !OperationTerminal(p.operations[k].state) then
            p.operations[k].(state := OperationCancelled, revision := p.operations[k].revision + 1, updatedAt := at)
                else p.operations[k])
  }

  ghost predicate Quarantines(s: State, t: State, id: Token, env: Env) {
    && id in s.targets && s.targets[id].generations != []
    && if s.targets[id].generations[|s.targets[id].generations| - 1].state.TargetQuarantined? then t == s
       else Revised(s, t, id, true, env) && Contains(s.targets[id], t.targets[id], env.stamp)
  }

  lemma QuarantineTargetDoes(s: State, id: Token, expected: nat, evidenceTarget: Token, evidenceGeneration: nat,
      env: Env)
    requires TargetsFiled(s)
    requires QuarantineTarget(s, id, expected, evidenceTarget, evidenceGeneration, env).Written?
    ensures Quarantines(s,
            Folded(s, QuarantineTarget(s, id, expected, evidenceTarget, evidenceGeneration, env).records), id, env)
    ensures evidenceTarget == id && evidenceGeneration == s.targets[id].current
  {
    GateTargetAdmits(s, id, true, env);
    var records := QuarantineTarget(s, id, expected, evidenceTarget, evidenceGeneration, env).records;
    if records != [] { PutRevised(s, records[0].body.target, true, env); }
  }

  // ------------------------------------------------------------------ runs and operations

  /** A first run on the ready current realization, for the agent generation that the
      lease names, which accepts work. */
  ghost predicate StartsRun(s: State, t: State, id: Token, materialization: Token, env: Env) {
    && Revised(s, t, id, false, env)
    && var p, v := s.targets[id], t.targets[id];
    && SameGenerations(p, v) && v.operations == p.operations && OneMore(p.runs, v.runs)
    && p.current == |p.generations| >= 1 && p.generations[p.current - 1].state.TargetReady?
    && (forall k | 0 <= k < |p.runs| :: p.runs[k].identity.generation != p.current)
    && var l, r := s.leases[p.identity.leaseId], v.runs[|p.runs|];
    && l.identity.agentId in s.agents
    && var a := s.agents[l.identity.agentId];
    && 1 <= l.agentGeneration == a.current <= |a.generations| && AcceptsExecs(a.generations[a.current - 1])
    && r.id == env.ids.run && r.state.RunRequested? && r.revision == 1 && r.binding.Empty()
    && r.bundle == Bundle(0, 0, 0) && r.incidentIds == []
    && r.identity == RunIdentity(p.current, l.identity.agentId, l.agentGeneration, materialization, env.stamp)
  }

  lemma StartRunDoes(s: State, id: Token, materialization: Token, env: Env)
    requires TargetsFiled(s)
    requires AgentsFiled(s)
    requires StartRun(s, id, materialization, env).Written?
    ensures StartsRun(s, Folded(s, StartRun(s, id, materialization, env).records), id, materialization, env)
  {
    GateTargetAdmits(s, id, false, env);
    PutRevised(s, StartRun(s, id, materialization, env).records[0].body.target, false, env);
  }

  /** Only the run with an identity changes, and it exists. */
  ghost predicate OnlyRun(p: Target, v: Target, runId: Token, at: Time) {
    && SameGenerations(p, v) && v.operations == p.operations && |v.runs| == |p.runs|
    && (exists k :: 0 <= k < |p.runs| && p.runs[k].id == runId)
    && (forall k | 0 <= k < |p.runs| ::
          v.runs[k] == if p.runs[k].id != runId then p.runs[k]
                       else p.runs[k].(state := v.runs[k].state, binding := v.runs[k].binding,
                           revision := p.runs[k].revision + 1, updatedAt := at))
  }

  ghost predicate BindsRun(s: State, t: State, id: Token, runId: Token, binding: Binding, env: Env) {
    && Revised(s, t, id, false, env) && OnlyRun(s.targets[id], t.targets[id], runId, env.stamp) && binding.Complete()
    && (forall k | 0 <= k < |s.targets[id].runs| && s.targets[id].runs[k].id == runId ::
          && s.targets[id].runs[k].state.RunRequested? && s.targets[id].runs[k].binding.Empty()
          && t.targets[id].runs[k].state.RunRequested? && t.targets[id].runs[k].binding == binding)
  }

  lemma BindRunPlanDoes(s: State, id: Token, runId: Token, expected: nat, binding: Binding, env: Env)
    requires TargetsFiled(s)
    requires BindRunPlan(s, id, runId, expected, binding, env).Written?
    ensures BindsRun(s, Folded(s, BindRunPlan(s, id, runId, expected, binding, env).records), id, runId, binding, env)
  {
    GateTargetAdmits(s, id, false, env);
    PutRevised(s, BindRunPlan(s, id, runId, expected, binding, env).records[0].body.target, false, env);
  }

  /** A run moves to a state other than completion or failure, which need a bundle. */
  ghost predicate MovesRun(s: State, t: State, id: Token, runId: Token, state: RunState, env: Env) {
    && Revised(s, t, id, RunTerminal(state), env) && OnlyRun(s.targets[id], t.targets[id], runId, env.stamp)
    && !state.RunCompleted? && !state.RunFailed?
    && (forall k | 0 <= k < |s.targets[id].runs| && s.targets[id].runs[k].id == runId ::
          && RunStep(s.targets[id].runs[k].state, state) && t.targets[id].runs[k].state == state
          && t.targets[id].runs[k].binding == s.targets[id].runs[k].binding)
  }

  lemma TransitionRunDoes(s: State, id: Token, runId: Token, expected: nat, state: RunState, env: Env)
    requires TargetsFiled(s)
    requires TransitionRun(s, id, runId, expected, state, env).Written?
    ensures MovesRun(s, Folded(s, TransitionRun(s, id, runId, expected, state, env).records), id, runId, state, env)
  {
    GateTargetAdmits(s, id, RunTerminal(state), env);
    PutRevised(s, TransitionRun(s, id, runId, expected, state, env).records[0].body.target, RunTerminal(state), env);
  }

  /** A requested operation on a running run, whose agent generation accepts work. */
  ghost predicate CreatesOperation(s: State, t: State, id: Token, runId: Token, description: Token, env: Env) {
    && Revised(s, t, id, false, env)
    && var p, v := s.targets[id], t.targets[id];
    && SameGenerations(p, v) && v.runs == p.runs && OneMore(p.operations, v.operations)
    && var o := v.operations[|p.operations|];
    && o.id == env.ids.operation && o.state.OperationRequested? && o.revision == 1
    && o.identity == OperationIdentity(runId, o.identity.generation, description, env.stamp)
    && (exists k :: 0 <= k < |p.runs| && p.runs[k].id == runId)
    && (forall k | 0 <= k < |p.runs| && p.runs[k].id == runId ::
          p.runs[k].state.RunRunning? && p.runs[k].identity.generation == o.identity.generation
              && OnAccepting(s, p.runs[k]))
  }

  ghost predicate OnAccepting(s: State, r: Run) {
    && r.identity.agentId in s.agents
    && var a := s.agents[r.identity.agentId];
    1 <= r.identity.agentGeneration == a.current <= |a.generations| && AcceptsExecs(a.generations[a.current - 1])
  }

  lemma CreateOperationDoes(s: State, id: Token, runId: Token, description: Token, env: Env)
    requires TargetsFiled(s)
    requires AgentsFiled(s)
    requires CreateOperation(s, id, runId, description, env).Written?
    ensures CreatesOperation(s, Folded(s, CreateOperation(s, id, runId, description, env).records), id, runId,
            description, env)
  {
    PutRevised(s, CreateOperation(s, id, runId, description, env).records[0].body.target, false, env);
  }

  ghost predicate MovesOperation(s: State, t: State, id: Token, operationId: Token, state: OperationState, env: Env) {
    && Revised(s, t, id, OperationTerminal(state), env)
    && var p, v := s.targets[id], t.targets[id];
    && SameGenerations(p, v) && v.runs == p.runs && |v.operations| == |p.operations|
    && (exists k :: 0 <= k < |p.operations| && p.operations[k].id == operationId)
    && (forall k | 0 <= k < |p.operations| ::
          if p.operations[k].id != operationId then v.operations[k] == p.operations[k]
          else
            && OperationStep(p.operations[k].state, state)
            && v.operations[k] ==
                p.operations[k].(state := state, revision := p.operations[k].revision + 1, updatedAt := env.stamp))
  }

  lemma TransitionOperationDoes(s: State, id: Token, operationId: Token, expected: nat, state: OperationState, env: Env)
    requires TargetsFiled(s)
    requires TransitionOperation(s, id, operationId, expected, state, env).Written?
    ensures MovesOperation(s, Folded(s, TransitionOperation(s, id, operationId, expected, state, env).records), id,
            operationId, state, env)
  {
    GateTargetAdmits(s, id, OperationTerminal(state), env);
    PutRevised(s, TransitionOperation(s, id, operationId, expected, state, env).records[0].body.target,
        OperationTerminal(state), env);
  }

  /** A run ends with its bundle. It may pass through finalizing on the way, in which
      case two revisions are written; a ready realization becomes resettable. */
  ghost predicate RunEnded(p: Target, v: Target, runId: Token, failed: bool, bundle: Bundle, incidentIds: seq<Token>,
      steps: nat, at: Time)
  {
    && v == p.(generations := v.generations, runs := v.runs, revision := p.revision + steps, updatedAt := at)
    && |v.runs| == |p.runs| && |v.generations| == |p.generations|
    && (exists k :: 0 <= k < |p.runs| && p.runs[k].id == runId)
    && (forall k | 0 <= k < |p.runs| && p.runs[k].id != runId :: v.runs[k] == p.runs[k])
    && (forall k | 0 <= k < |p.runs| && p.runs[k].id == runId ::
          && !RunTerminal(p.runs[k].state) && United(p.runs[k].incidentIds, incidentIds, v.runs[k].incidentIds)
          && v.runs[k] == p.runs[k].(state := if failed then RunFailed else RunCompleted, bundle := bundle,
                                     incidentIds := v.runs[k].incidentIds, revision := p.runs[k].revision + steps,
                                     updatedAt := at)
          && (forall g | 0 <= g < |p.generations| ::
                v.generations[g] == if g + 1 == p.runs[k].identity.generation
                    && p.generations[g].state.TargetReady? then
                  p.generations[g].(state := TargetResettable, revision := p.generations[g].revision + 1,
                      updatedAt := at)
                else p.generations[g]))
  }

  ghost predicate EndsRun(s: State, t: State, id: Token, runId: Token, failed: bool, bundle: Bundle,
      incidentIds: seq<Token>, env: Env)
  {
    && id in s.targets && OnlyTarget(s, t, id) && Admitted(s, s.targets[id], true, env)
    && (RunEnded(s.targets[id], t.targets[id], runId, failed, bundle, incidentIds, 1, env.stamp) ||
        (!failed && RunEnded(s.targets[id], t.targets[id], runId, failed, bundle, incidentIds, 2, env.stamp)))
  }

  lemma ClosedGenerations(t: Target, i: nat, terminal: RunState, bundle: Bundle, incidentIds: seq<Token>, at: Time)
    requires i < |t.runs| && Numbered(t)
    ensures var v := RunClosed(t, i, terminal, bundle, incidentIds, at);
            && |v.generations| == |t.generations|
            && forall g | 0 <= g < |t.generations| ::
                 v.generations[g] == if g + 1 == t.runs[i].identity.generation
                     && t.generations[g].state.TargetReady? then
                   t.generations[g].(state := TargetResettable, revision := t.generations[g].revision + 1,
                       updatedAt := at)
                 else t.generations[g]
  {}

  lemma ClosedEnds(t: Target, i: nat, failed: bool, bundle: Bundle, incidentIds: seq<Token>, at: Time)
    requires i < |t.runs| && Numbered(t) && !RunTerminal(t.runs[i].state)
    ensures RunEnded(t, RunClosed(t, i, if failed then RunFailed else RunCompleted, bundle, incidentIds, at),
                     t.runs[i].id, failed, bundle, incidentIds, 1, at)
  {
    ClosedGenerations(t, i, if failed then RunFailed else RunCompleted, bundle, incidentIds, at);
  }

  lemma FinalizedEnds(t: Target, i: nat, bundle: Bundle, incidentIds: seq<Token>, at: Time)
    requires i < |t.runs| && Numbered(t) && !RunTerminal(t.runs[i].state)
    ensures var finalizing := WithRun(t, i, RunMoved(t.runs[i], RunFinalizing, at), at);
            RunEnded(t, RunClosed(finalizing, i, RunCompleted, bundle, incidentIds, at), t.runs[i].id, false, bundle,
                     incidentIds, 2, at)
  {
    ClosedGenerations(WithRun(t, i, RunMoved(t.runs[i], RunFinalizing, at), at), i, RunCompleted, bundle, incidentIds,
        at);
  }

  lemma FinalizeRunDoes(s: State, id: Token, runId: Token, expected: nat, failed: bool, bundle: Bundle,
      incidentIds: seq<Token>, env: Env)
    requires TargetsFiled(s)
    requires FinalizeRun(s, id, runId, expected, failed, bundle, incidentIds, env).Written?
    ensures EndsRun(s, Folded(s, FinalizeRun(s, id, runId, expected, failed, bundle, incidentIds, env).records),
                    id, runId, failed, bundle, incidentIds, env)
  {
    GateTargetAdmits(s, id, true, env);
    FinalizeRunWrites(s, id, runId, expected, failed, bundle, incidentIds, env);
    var t, i, at := s.targets[id], RunIndex(s.targets[id].runs, runId), env.stamp;
    if failed || t.runs[i].state.RunFinalizing? {
      ClosedEnds(t, i, failed, bundle, incidentIds, at);
      EndedOnce(s, RunClosed(t, i, if failed then RunFailed else RunCompleted, bundle, incidentIds, at), runId, failed,
          bundle, incidentIds, env);
    } else {
      var u := WithRun(t, i, RunMoved(t.runs[i], RunFinalizing, at), at);
      FinalizedEnds(t, i, bundle, incidentIds, at);
      EndedTwice(s, u, RunClosed(u, i, RunCompleted, bundle, incidentIds, at), runId, bundle, incidentIds, env);
    }
  }

  lemma EndedOnce(s: State, v: Target, runId: Token, failed: bool, bundle: Bundle, incidentIds: seq<Token>, env: Env)
    requires v.id in s.targets && Admitted(s, s.targets[v.id], true, env)
    requires RunEnded(s.targets[v.id], v, runId, failed, bundle, incidentIds, 1, env.stamp)
    ensures EndsRun(s, Folded(s, [Entry(TargetBody(v))]), v.id, runId, failed, bundle, incidentIds, env)
  {
    FoldedOne(s, Entry(TargetBody(v)));
  }

  lemma EndedTwice(s: State, u: Target, v: Target, runId: Token, bundle: Bundle, incidentIds: seq<Token>, env: Env)
    requires u.id == v.id && v.id in s.targets && Admitted(s, s.targets[v.id], true, env)
    requires RunEnded(s.targets[v.id], v, runId, false, bundle, incidentIds, 2, env.stamp)
    ensures EndsRun(s, Folded(s, [Entry(TargetBody(u)), Entry(TargetBody(v))]), v.id, runId, false, bundle,
            incidentIds, env)
  {
    FoldedTwo(s, Entry(TargetBody(u)), Entry(TargetBody(v)));
  }
}

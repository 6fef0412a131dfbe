/** The commands on targets commit only what replay accepts. */
module TargetCommands {
  import opened States
  import opened Records
  import opened Replay
  import opened Commands
  import opened Invariant
  import opened Landing
  import opened Edits
  import opened Chains

  /** A revision in place of a recorded target. */
  ghost predicate Revises(s: State, v: Target, at: Time) {
    v.id in s.targets && Edited(s.targets[v.id], v, at) && SameSize(s.targets[v.id], v)
        && NewLinks(s, s.targets[v.id], v)
  }

  ghost predicate RevisesOne(s: State, o: Outcome, at: Time) {
    o.Written? ==>
      && |o.records| == 1 && o.records[0].body.TargetBody?
      && o.records == [Entry(TargetBody(o.records[0].body.target))] && Revises(s, o.records[0].body.target, at)
  }

  lemma RevisionLands(s: State, v: Target, at: Time)
    requires Inv(s) && Revises(s, v, at)
    ensures Lands(s, Entry(TargetBody(v)), Put(s, TargetBody(v)))
  {
    LandEdit(s, v, at);
  }

  lemma RevisionAgreed(s: State, v: Target, at: Time)
    requires Inv(s) && Revises(s, v, at)
    ensures Agreed(s, [Entry(TargetBody(v))])
  {
    RevisionLands(s, v, at);
    Alone(s, Entry(TargetBody(v)), Put(s, TargetBody(v)));
  }

  lemma RevisionAgrees(s: State, o: Outcome, at: Time)
    requires Inv(s) && RevisesOne(s, o, at)
    ensures Agrees(s, o)
  {
    if o.Written? {
      RevisionAgreed(s, o.records[0].body.target, at);
    }
  }

  /** What the edits below need to know of a target. */
  ghost predicate Sound(s: State, t: Target, at: Time) {
    t.id in s.targets && s.targets[t.id] == t && ValidTarget(t) && t.updatedAt <= at
  }

  lemma SoundTarget(s: State, id: Token, at: Time)
    requires TargetsInv(s) && Before(s, at) && id in s.targets
    ensures Sound(s, s.targets[id], at) && s.targets[id].id == id
  {}

  // -------------------------------------------------------------- edits in place

  lemma GenRevises(s: State, t: Target, i: nat, g: TargetGen, at: Time)
    requires Sound(s, t, at) && i < |t.generations| && GenEdited(t.generations[i], g, at)
    ensures Revises(s, Touched(t.(generations := t.generations[i := g]), at), at)
  {}

  lemma RunRevises(s: State, t: Target, i: nat, r: Run, at: Time)
    requires Sound(s, t, at) && i < |t.runs| && RunEdited(t.runs[i], r, at)
    requires forall k | 0 <= k < |r.incidentIds| ::
      r.incidentIds[k] in t.runs[i].incidentIds || LinkedRunIncident(s, t, t.runs[i], r.incidentIds[k])
    ensures Revises(s, WithRun(t, i, r, at), at)
  {}

  lemma OperationRevises(s: State, t: Target, i: nat, o: Operation, at: Time)
    requires Sound(s, t, at) && i < |t.operations| && OperationEdited(t.operations[i], o, at)
    ensures Revises(s, Touched(t.(operations := t.operations[i := o]), at), at)
  {}

  lemma TransitionTargetGenRevises(s: State, id: Token, generation: nat, expected: nat, state: TargetState, env: Env)
    requires id in s.targets ==> Sound(s, s.targets[id], env.stamp)
    ensures RevisesOne(s, TransitionTargetGen(s, id, generation, expected, state, env), env.stamp)
  {
    if TransitionTargetGen(s, id, generation, expected, state, env).Written? {
      var t := s.targets[id];
      var i := TargetGenIndex(t.generations, generation);
      GenRevises(s, t, i, t.generations[i].(state := state, revision := t.generations[i].revision + 1,
          updatedAt := env.stamp), env.stamp);
    }
  }

  lemma BindTargetPlanRevises(s: State, id: Token, generation: nat, expected: nat, binding: Binding, env: Env)
    requires id in s.targets ==> Sound(s, s.targets[id], env.stamp)
    ensures RevisesOne(s, BindTargetPlan(s, id, generation, expected, binding, env), env.stamp)
  {
    if BindTargetPlan(s, id, generation, expected, binding, env).Written? {
      var t := s.targets[id];
      var i := TargetGenIndex(t.generations, generation);
      GenRevises(s, t, i, t.generations[i].(binding := binding, revision := t.generations[i].revision + 1,
          updatedAt := env.stamp), env.stamp);
    }
  }

  lemma BindRunPlanRevises(s: State, id: Token, runId: Token, expected: nat, binding: Binding, env: Env)
    requires id in s.targets ==> Sound(s, s.targets[id], env.stamp)
    ensures RevisesOne(s, BindRunPlan(s, id, runId, expected, binding, env), env.stamp)
  {
    if BindRunPlan(s, id, runId, expected, binding, env).Written? {
      var t := s.targets[id];
      var i := RunIndex(t.runs, runId);
      assert ValidRun(t, t.runs[i]);
      RunRevises(s, t, i, t.runs[i].(binding := binding, revision := t.runs[i].revision + 1, updatedAt := env.stamp),
          env.stamp);
    }
  }

  lemma TransitionRunRevises(s: State, id: Token, runId: Token, expected: nat, state: RunState, env: Env)
    requires id in s.targets ==> Sound(s, s.targets[id], env.stamp)
    ensures RevisesOne(s, TransitionRun(s, id, runId, expected, state, env), env.stamp)
  {
    if TransitionRun(s, id, runId, expected, state, env).Written? {
      var t := s.targets[id];
      var i := RunIndex(t.runs, runId);
      assert ValidRun(t, t.runs[i]);
      RunRevises(s, t, i, RunMoved(t.runs[i], state, env.stamp), env.stamp);
    }
  }

  lemma TransitionOperationRevises(s: State, id: Token, operationId: Token, expected: nat, state: OperationState,
      env: Env)
    requires id in s.targets ==> Sound(s, s.targets[id], env.stamp)
    ensures RevisesOne(s, TransitionOperation(s, id, operationId, expected, state, env), env.stamp)
  {
    if TransitionOperation(s, id, operationId, expected, state, env).Written? {
      var t := s.targets[id];
      var i := OperationIndex(t.operations, operationId);
      OperationRevises(s, t, i, OperationMoved(t.operations[i], state, env.stamp), env.stamp);
    }
  }

  // ------------------------------------------------------------- finalizing a run

  ghost predicate Attachable(s: State, t: Target, r: Run, incidentIds: seq<Token>) {
    0 !in incidentIds && forall k | 0 <= k < |incidentIds| :: LinkedRunIncident(s, t, r, incidentIds[k])
  }

  predicate BundleSealed(bundle: Bundle) { bundle.id != 0 && (bundle.artifact == 0 <==> bundle.digest == 0) }

  lemma MergedLinks(s: State, t: Target, r: Run, incidentIds: seq<Token>)
    requires ValidIncidentIds(r.incidentIds) && Attachable(s, t, r, incidentIds)
    ensures ValidIncidentIds(Merged(r.incidentIds, incidentIds))
    ensures forall k | 0 <= k < |Merged(r.incidentIds, incidentIds)| ::
      Merged(r.incidentIds, incidentIds)[k] in r.incidentIds
          || LinkedRunIncident(s, t, r, Merged(r.incidentIds, incidentIds)[k])
  {}

  lemma ClosedRunEdited(s: State, t: Target, r: Run, terminal: RunState, bundle: Bundle, incidentIds: seq<Token>,
      at: Time)
    requires ValidIncidentIds(r.incidentIds) && RunStep(r.state, terminal) && BundleSealed(bundle)
            && Attachable(s, t, r, incidentIds)
    ensures RunEdited(r, RunMoved(r, terminal, at).(bundle := bundle,
            incidentIds := Merged(r.incidentIds, incidentIds)), at)
  {}

  /** A run and a generation revised together. */
  lemma RunAndGenRevise(s: State, t: Target, i: nat, r: Run, gens: seq<TargetGen>, at: Time)
    requires Sound(s, t, at) && i < |t.runs| && RunEdited(t.runs[i], r, at)
    requires forall k | 0 <= k < |r.incidentIds| ::
      r.incidentIds[k] in t.runs[i].incidentIds || LinkedRunIncident(s, t, t.runs[i], r.incidentIds[k])
    requires |gens| == |t.generations| && forall k | 0 <= k < |gens| :: GenEdited(t.generations[k], gens[k], at)
    ensures Revises(s, Touched(t.(runs := t.runs[i := r], generations := gens), at), at)
  {}

  lemma RunClosedRevises(s: State, t: Target, i: nat, terminal: RunState, bundle: Bundle, incidentIds: seq<Token>,
      at: Time)
    requires Sound(s, t, at) && i < |t.runs| && RunStep(t.runs[i].state, terminal) && BundleSealed(bundle)
    requires Attachable(s, t, t.runs[i], incidentIds)
    ensures Revises(s, RunClosed(t, i, terminal, bundle, incidentIds, at), at)
  {
    assert ValidRun(t, t.runs[i]);
    var v := RunClosed(t, i, terminal, bundle, incidentIds, at);
    ClosedRunEdited(s, t, t.runs[i], terminal, bundle, incidentIds, at);
    MergedLinks(s, t, t.runs[i], incidentIds);
    RunAndGenRevise(s, t, i, v.runs[i], v.generations, at);
  }

  /** A run that is running is first recorded as finalizing, then closed. */
  lemma TwoStepClose(s: State, t: Target, i: nat, bundle: Bundle, incidentIds: seq<Token>, at: Time)
    requires Inv(s) && Sound(s, t, at) && i < |t.runs| && RunStep(t.runs[i].state, RunFinalizing)
            && BundleSealed(bundle)
    requires Attachable(s, t, t.runs[i], incidentIds)
    ensures var u := WithRun(t, i, RunMoved(t.runs[i], RunFinalizing, at), at);
            Agreed(s, [Entry(TargetBody(u)), Entry(TargetBody(RunClosed(u, i, RunCompleted, bundle, incidentIds, at)))])
  {
    var u := FinalizingRevises(s, t, i, at);
    RevisionLands(s, u, at);
    var m := Put(s, TargetBody(u));
    ClosingRevises(s, t, i, bundle, incidentIds, at);
    var v := RunClosed(u, i, RunCompleted, bundle, incidentIds, at);
    RevisionLands(m, v, at);
    ReachesTwice(s, Entry(TargetBody(u)), m, Entry(TargetBody(v)), Put(m, TargetBody(v)));
    ReachedAgreed(s, [Entry(TargetBody(u)), Entry(TargetBody(v))], Put(m, TargetBody(v)));
  }

  lemma FinalizingRevises(s: State, t: Target, i: nat, at: Time) returns (u: Target)
    requires Sound(s, t, at) && i < |t.runs| && RunStep(t.runs[i].state, RunFinalizing)
    ensures u == WithRun(t, i, RunMoved(t.runs[i], RunFinalizing, at), at)
    ensures Revises(s, u, at)
  {
    u := WithRun(t, i, RunMoved(t.runs[i], RunFinalizing, at), at);
    assert ValidRun(t, t.runs[i]);
    RunRevises(s, t, i, RunMoved(t.runs[i], RunFinalizing, at), at);
  }

  lemma ClosingRevises(s: State, t: Target, i: nat, bundle: Bundle, incidentIds: seq<Token>, at: Time)
    requires Sound(s, t, at) && i < |t.runs| && RunStep(t.runs[i].state, RunFinalizing) && BundleSealed(bundle)
    requires Attachable(s, t, t.runs[i], incidentIds)
    ensures var u := WithRun(t, i, RunMoved(t.runs[i], RunFinalizing, at), at);
            Revises(Put(s, TargetBody(u)), RunClosed(u, i, RunCompleted, bundle, incidentIds, at), at)
  {
    var u := FinalizingRevises(s, t, i, at);
    EditedValid(t, u, at);
    RunClosedRevises(Put(s, TargetBody(u)), u, i, RunCompleted, bundle, incidentIds, at);
  }

  lemma FinalizeRunWrites(s: State, id: Token, runId: Token, expected: nat, failed: bool, bundle: Bundle,
      incidentIds: seq<Token>, env: Env)
    requires FinalizeRun(s, id, runId, expected, failed, bundle, incidentIds, env).Written?
    ensures id in s.targets && HasRun(s.targets[id].runs, runId) && BundleSealed(bundle)
    ensures var t, i := s.targets[id], RunIndex(s.targets[id].runs, runId);
            var records := FinalizeRun(s, id, runId, expected, failed, bundle, incidentIds, env).records;
            && Attachable(s, t, t.runs[i], incidentIds)
            && (if failed || t.runs[i].state.RunFinalizing? then
                  var terminal := if failed then RunFailed else RunCompleted;
                  && RunStep(t.runs[i].state, terminal)
                  && records == [Entry(TargetBody(RunClosed(t, i, terminal, bundle, incidentIds, env.stamp)))]
                else
                  var u := WithRun(t, i, RunMoved(t.runs[i], RunFinalizing, env.stamp), env.stamp);
                  && RunStep(t.runs[i].state, RunFinalizing)
                  && records == [Entry(TargetBody(u)),
                      Entry(TargetBody(RunClosed(u, i, RunCompleted, bundle, incidentIds, env.stamp)))])
  {}

  lemma FinalizeRunAgrees(s: State, id: Token, runId: Token, expected: nat, failed: bool, bundle: Bundle,
      incidentIds: seq<Token>, env: Env)
    requires Inv(s) && (id in s.targets ==> Sound(s, s.targets[id], env.stamp))
    ensures Agrees(s, FinalizeRun(s, id, runId, expected, failed, bundle, incidentIds, env))
  {
    if FinalizeRun(s, id, runId, expected, failed, bundle, incidentIds, env).Written? {
      FinalizeRunWrites(s, id, runId, expected, failed, bundle, incidentIds, env);
      var t := s.targets[id];
      var i := RunIndex(t.runs, runId);
      if failed || t.runs[i].state.RunFinalizing? {
        var terminal := if failed then RunFailed else RunCompleted;
        RunClosedRevises(s, t, i, terminal, bundle, incidentIds, env.stamp);
        RevisionAgreed(s, RunClosed(t, i, terminal, bundle, incidentIds, env.stamp), env.stamp);
      } else {
        TwoStepClose(s, t, i, bundle, incidentIds, env.stamp);
      }
    }
  }
}

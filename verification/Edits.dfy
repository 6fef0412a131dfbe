/** Revisions of one target: a command edits some generations, runs and operations
    in place and may append one; what that keeps valid. */
module Edits {
  import opened States
  import opened Records
  import opened Replay
  import opened Commands
  import opened Invariant
  import opened Landing

  predicate Bound(p: Binding, v: Binding) { p == v || (p.Empty() && v.Complete()) }

  predicate GenEdited(p: TargetGen, v: TargetGen, at: Time) {
    v == p ||
    (&& p.identity == v.identity && v.revision == p.revision + 1 && v.updatedAt == at
     && Bound(p.binding, v.binding) && (p.state == v.state || TargetStep(p.state, v.state)))
  }

  predicate RunEdited(p: Run, v: Run, at: Time) {
    && p.id == v.id && p.identity == v.identity && Bound(p.binding, v.binding)
    && ValidIncidentIds(v.incidentIds)
    && (if v.revision == p.revision then v.updatedAt == p.updatedAt && v.state == p.state && v.bundle == p.bundle
        else v.revision == p.revision + 1 && v.updatedAt == at && RunFilled(p, v))
  }

  predicate RunFilled(p: Run, v: Run) {
    && (if RunTerminal(p.state) then p.state == v.state && v.bundle == p.bundle
        else p.state == v.state || RunStep(p.state, v.state))
    && (v.bundle.artifact == 0 <==> v.bundle.digest == 0)
    && (v.bundle.artifact != 0 ==> v.bundle.id != 0)
    && (v.state.RunCompleted? || v.state.RunFailed? ==> v.bundle.id != 0)
  }

  predicate OperationEdited(p: Operation, v: Operation, at: Time) {
    v == p ||
    (&& p.id == v.id && p.identity == v.identity && v.revision == p.revision + 1 && v.updatedAt == at
     && OperationStep(p.state, v.state))
  }

  /** The next revision of a target, with its elements edited in place. */
  ghost predicate Edited(p: Target, v: Target, at: Time) {
    && p.id == v.id && p.identity == v.identity && v.revision == p.revision + 1 && p.updatedAt <= at == v.updatedAt
    && v.current == |v.generations| <= |p.generations| + 1
    && |p.generations| <= |v.generations| && |p.runs| <= |v.runs| && |p.operations| <= |v.operations|
    && (forall i | 0 <= i < |p.generations| :: GenEdited(p.generations[i], v.generations[i], at))
    && (forall i | 0 <= i < |p.runs| :: RunEdited(p.runs[i], v.runs[i], at))
    && (forall i | 0 <= i < |p.operations| :: OperationEdited(p.operations[i], v.operations[i], at))
  }

  lemma EditedMoves(p: Target, v: Target, at: Time)
    requires ValidTarget(p) && Edited(p, v, at)
    ensures TargetMoves(p, v)
  {}

  // --------------------------------------------------------- validity of the revision

  lemma EditedGensValid(p: Target, v: Target, at: Time)
    requires ValidTarget(p) && Edited(p, v, at)
    ensures forall i | 0 <= i < |p.generations| ::
            v.generations[i].identity.generation == i + 1 && ValidTargetGen(v, v.generations[i])
  {}

  lemma EditedRunsValid(p: Target, v: Target, at: Time)
    requires ValidTarget(p) && Edited(p, v, at)
    ensures forall i | 0 <= i < |p.runs| :: ValidRun(v, v.runs[i])
  {}

  lemma EditedOperationsValid(p: Target, v: Target, at: Time)
    requires ValidTarget(p) && Edited(p, v, at)
    ensures forall i | 0 <= i < |p.operations| :: ValidOperation(v, v.operations[i])
  {}

  predicate SameSize(p: Target, v: Target) {
    |p.generations| == |v.generations| && |p.runs| == |v.runs| && |p.operations| == |v.operations|
  }

  lemma EditedDistinct(p: Target, v: Target, at: Time)
    requires ValidTarget(p) && Edited(p, v, at)
    ensures DistinctRuns(v.runs[..|p.runs|]) && DistinctOperations(v.operations[..|p.operations|])
  {}

  lemma EditedValid(p: Target, v: Target, at: Time)
    requires ValidTarget(p) && Edited(p, v, at) && SameSize(p, v)
    ensures ValidTarget(v)
  {
    EditedGensValid(p, v, at);
    EditedRunsValid(p, v, at);
    EditedOperationsValid(p, v, at);
    EditedDistinct(p, v, at);
    assert v.runs[..|p.runs|] == v.runs && v.operations[..|p.operations|] == v.operations;
  }

  // ------------------------------------------------------------------- links and shape

  /** Incidents that a revision adds to a run are recorded incidents of that run. */
  ghost predicate NewLinks(s: State, p: Target, v: Target)
    requires |p.runs| <= |v.runs|
  {
    forall i, k | 0 <= i < |p.runs| && 0 <= k < |v.runs[i].incidentIds| ::
      v.runs[i].incidentIds[k] in p.runs[i].incidentIds || LinkedRunIncident(s, p, p.runs[i], v.runs[i].incidentIds[k])
  }

  lemma EditedRunsLinked(s: State, p: Target, v: Target, at: Time)
    requires LinkedTarget(s, p) && Edited(p, v, at) && NewLinks(s, p, v)
    ensures forall i | 0 <= i < |p.runs| :: LinkedRun(s, v, v.runs[i])
  {}

  lemma EditedShape(p: Target, v: Target, at: Time)
    requires p.current == |p.generations| && TargetShape(p) && Edited(p, v, at) && SameSize(p, v)
    ensures TargetShape(v)
    ensures TargetDone(p) ==> TargetDone(v)
  {}

  /** An edit in place of a recorded target is storable, accepted by replay, and harmless. */
  lemma LandEdit(s: State, v: Target, at: Time)
    requires Inv(s) && v.id in s.targets
    requires Edited(s.targets[v.id], v, at) && SameSize(s.targets[v.id], v) && NewLinks(s, s.targets[v.id], v)
    ensures Lands(s, Entry(TargetBody(v)), Put(s, TargetBody(v)))
  {
    var p := s.targets[v.id];
    assert TargetInv(s, v.id);
    EditedMoves(p, v, at);
    EditedValid(p, v, at);
    EditedRunsLinked(s, p, v, at);
    EditedShape(p, v, at);
    LandTarget(s, v);
  }
}

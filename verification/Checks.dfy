/** The checks that the core makes by looping over its records, each computing a
    condition of the model. */
module Checks {
  import opened States
  import opened Records
  import opened Replay
  import opened Commands

  // ---------------------------------------------------------------------- lookups

  method FindRun(runs: seq<Run>, id: Token) returns (i: nat)
    ensures i == RunIndex(runs, id)
  {
    i := 0;
    while i < |runs|
      invariant i <= |runs| && forall j | 0 <= j < i :: runs[j].id != id
    {
      if runs[i].id == id { break; }
      i := i + 1;
    }
  }

  // --------------------------------------------------------------- work under a lease

  lemma AscendingUnique(xs: seq<Token>, ys: seq<Token>)
    requires Ascending(xs) && Ascending(ys) && forall x :: x in xs <==> x in ys
    ensures xs == ys
  {
    assert (|xs| > 0 ==> xs[0] in xs) && (|ys| > 0 ==> ys[0] in ys);
    if |xs| > 0 {
      assert xs[0] == ys[0];
      forall x ensures x in xs[1..] <==> x in ys[1..] {
        assert x in xs[1..] <==> x in xs && x != xs[0];
        assert x in ys[1..] <==> x in ys && x != ys[0];
      }
      AscendingUnique(xs[1..], ys[1..]);
    }
  }

  /** The identities of the targets of a lease, in order, whatever order the map is read in. */
  method TargetIdsForLease(targets: map<Token, Target>, leaseId: Token) returns (ids: seq<Token>)
    ensures ids == Listed(set id | id in targets && targets[id].identity.leaseId == leaseId)
  {
    ids := [];
    var left := targets.Keys;
    while left != {}
      invariant left <= targets.Keys && Ascending(ids)
      invariant forall id :: id in ids <==> id in targets && id !in left && targets[id].identity.leaseId == leaseId
      decreases |left|
    {
      var id :| id in left;
      left := left - {id};
      if targets[id].identity.leaseId == leaseId { ids := Insert(id, ids); }
    }
    AscendingUnique(ids, Listed(set id | id in targets && targets[id].identity.leaseId == leaseId));
  }

  method RunsFinal(runs: seq<Run>) returns (ok: bool)
    ensures ok == forall k | 0 <= k < |runs| :: RunTerminal(runs[k].state)
  {
    for i := 0 to |runs|
      invariant forall k | 0 <= k < i :: RunTerminal(runs[k].state)
    {
      if !RunTerminal(runs[i].state) { return false; }
    }
    return true;
  }

  method OperationsFinal(operations: seq<Operation>) returns (ok: bool)
    ensures ok == forall k | 0 <= k < |operations| :: OperationTerminal(operations[k].state)
  {
    for i := 0 to |operations|
      invariant forall k | 0 <= k < i :: OperationTerminal(operations[k].state)
    {
      if !OperationTerminal(operations[i].state) { return false; }
    }
    return true;
  }

  method ExecsFinal(execs: map<Token, Exec>, leaseId: Token) returns (ok: bool)
    ensures ok == forall id | id in execs :: execs[id].identity.leaseId == leaseId ==> ExecTerminal(execs[id].state)
  {
    var left := execs.Keys;
    while left != {}
      invariant left <= execs.Keys
      invariant forall id | id in execs && id !in left ::
          execs[id].identity.leaseId == leaseId ==> ExecTerminal(execs[id].state)
      decreases |left|
    {
      var id :| id in left;
      if execs[id].identity.leaseId == leaseId && !ExecTerminal(execs[id].state) { return false; }
      left := left - {id};
    }
    return true;
  }

  /** No exec, run or operation under the lease is left unfinished. */
  method LeaseWorkFinalized(s: State, leaseId: Token) returns (ok: bool)
    ensures ok == LeaseWorkDone(s, leaseId)
  {
    ok := ExecsFinal(s.execs, leaseId);
    if !ok { return; }
    var ids := TargetIdsForLease(s.targets, leaseId);
    ok := TargetsFinal(s.targets, ids);
  }

  method TargetsFinal(targets: map<Token, Target>, ids: seq<Token>) returns (ok: bool)
    requires forall id | id in ids :: id in targets
    ensures ok == forall id | id in ids :: TargetWorkDone(targets[id])
  {
    for i := 0 to |ids|
      invariant forall id | id in ids[..i] :: TargetWorkDone(targets[id])
    {
      assert ids[i] in ids && ids[..i + 1] == ids[..i] + [ids[i]];
      ok := TargetFinal(targets[ids[i]]);
      if !ok { return; }
    }
    assert ids[..|ids|] == ids;
    ok := true;
  }

  method TargetFinal(t: Target) returns (ok: bool)
    ensures ok == TargetWorkDone(t)
  {
    ok := RunsFinal(t.runs);
    if !ok { return; }
    ok := OperationsFinal(t.operations);
  }

  // ------------------------------------------------------------------ idle generations

  method ExecsIdle(execs: map<Token, Exec>, agentId: Token, generation: nat) returns (ok: bool)
    ensures ok == forall id | id in execs ::
      execs[id].identity.agentId == agentId && execs[id].identity.agentGeneration == generation ==>
          ExecTerminal(execs[id].state)
  {
    var left := execs.Keys;
    while left != {}
      invariant left <= execs.Keys
      invariant forall id | id in execs && id !in left ::
        execs[id].identity.agentId == agentId && execs[id].identity.agentGeneration == generation ==>
            ExecTerminal(execs[id].state)
      decreases |left|
    {
      var id :| id in left;
      var e := execs[id];
      if e.identity.agentId == agentId && e.identity.agentGeneration == generation
          && !ExecTerminal(e.state) { return false; }
      left := left - {id};
    }
    return true;
  }

  method TargetIdle(t: Target, agentId: Token, generation: nat) returns (ok: bool)
    ensures ok == OperationsDone(t, agentId, generation)
  {
    for k := 0 to |t.operations|
      invariant forall j | 0 <= j < k && !OperationTerminal(t.operations[j].state) ::
        var r := RunIndex(t.runs, t.operations[j].identity.runId);
        r < |t.runs| && !(t.runs[r].identity.agentId == agentId && t.runs[r].identity.agentGeneration == generation)
    {
      if !OperationTerminal(t.operations[k].state) {
        var r := FindRun(t.runs, t.operations[k].identity.runId);
        if r == |t.runs| || (t.runs[r].identity.agentId == agentId
            && t.runs[r].identity.agentGeneration == generation) { return false; }
      }
    }
    return true;
  }

  /** No exec of the generation is live, and no live operation belongs to one of its runs. */
  method AgentGenerationIdle(s: State, agentId: Token, generation: nat) returns (ok: bool)
    ensures ok == AgentIdle(s, agentId, generation)
  {
    ok := ExecsIdle(s.execs, agentId, generation);
    if !ok { return; }
    var left := s.targets.Keys;
    while left != {}
      invariant left <= s.targets.Keys
      invariant forall id | id in s.targets && id !in left :: OperationsDone(s.targets[id], agentId, generation)
      decreases |left|
    {
      var id :| id in left;
      var idle := TargetIdle(s.targets[id], agentId, generation);
      if !idle { return false; }
      left := left - {id};
    }
  }

  // --------------------------------------------------------------- replayed histories

  /** Runs are matched by identity through a map filled from the next revision. */
  method RunsContinue(previous: seq<Run>, next: seq<Run>) returns (ok: bool)
    requires DistinctRuns(next)
    ensures ok == RunHistory(previous, next)
  {
    if |next| < |previous| { return false; }
    var nextById: map<Token, Run> := map[];
    for i := 0 to |next|
      invariant forall id :: id in nextById <==> RunIndex(next, id) < i
      invariant forall id | id in nextById :: nextById[id] == next[RunIndex(next, id)]
    {
      assert RunIndex(next, next[i].id) == i;
      nextById := nextById[next[i].id := next[i]];
    }
    for i := 0 to |previous|
      invariant forall k | 0 <= k < i ::
        HasRun(next, previous[k].id) && RunAdvances(previous[k], next[RunIndex(next, previous[k].id)])
    {
      if previous[i].id !in nextById || !RunAdvances(previous[i], nextById[previous[i].id]) { return false; }
    }
    return true;
  }

  method OperationsContinue(previous: seq<Operation>, next: seq<Operation>) returns (ok: bool)
    requires DistinctOperations(next)
    ensures ok == OperationHistory(previous, next)
  {
    if |next| < |previous| { return false; }
    var nextById: map<Token, Operation> := map[];
    for i := 0 to |next|
      invariant forall id :: id in nextById <==> OperationIndex(next, id) < i
      invariant forall id | id in nextById :: nextById[id] == next[OperationIndex(next, id)]
    {
      assert OperationIndex(next, next[i].id) == i;
      nextById := nextById[next[i].id := next[i]];
    }
    for i := 0 to |previous|
      invariant forall k | 0 <= k < i ::
        OperationIndex(next, previous[k].id) < |next| &&
        OperationAdvances(previous[k], next[OperationIndex(next, previous[k].id)])
    {
      if previous[i].id !in nextById || !OperationAdvances(previous[i], nextById[previous[i].id]) { return false; }
    }
    return true;
  }

  ghost predicate Remembered(runs: seq<Run>, generations: map<Token, nat>) {
    && (forall id :: id in generations <==> HasRun(runs, id))
    && (forall id | id in generations ::
        HasRun(runs, id) && generations[id] == runs[RunIndex(runs, id)].identity.generation)
  }

  /** Identities are remembered with the generation of their run; a repeated one is refused. */
  method RememberRuns(runs: seq<Run>) returns (ok: bool, generations: map<Token, nat>)
    ensures ok == DistinctRuns(runs)
    ensures ok ==> Remembered(runs, generations)
  {
    generations := map[];
    for i := 0 to |runs|
      invariant forall j, k | 0 <= j < k < i :: runs[j].id != runs[k].id
      invariant forall id :: id in generations <==> RunIndex(runs, id) < i
      invariant forall id | id in generations :: generations[id] == runs[RunIndex(runs, id)].identity.generation
    {
      if runs[i].id in generations { return false, generations; }
      assert RunIndex(runs, runs[i].id) == i;
      generations := generations[runs[i].id := runs[i].identity.generation];
    }
    ok := true;
  }

  predicate OperationFits(v: Target, o: Operation, generations: map<Token, nat>) {
    && o.id != 0 && o.identity.description != 0 && o.identity.runId != 0
    && o.identity.runId in generations && generations[o.identity.runId] == o.identity.generation
    && o.revision >= 1
    && ContainedTimes(v.identity.createdAt, v.updatedAt, o.identity.createdAt, o.updatedAt)
  }

  lemma FitsIsValid(v: Target, o: Operation, generations: map<Token, nat>)
    requires Remembered(v.runs, generations)
    ensures OperationFits(v, o, generations) <==> ValidOperation(v, o)
  {}

  /** The operations, compared with the remembered generations of their runs. */
  method OperationsFit(v: Target, generations: map<Token, nat>) returns (ok: bool)
    ensures ok == ((forall i | 0 <= i < |v.operations| :: OperationFits(v, v.operations[i], generations))
            && DistinctOperations(v.operations))
  {
    var seen: set<Token> := {};
    for i := 0 to |v.operations|
      invariant forall k | 0 <= k < i :: OperationFits(v, v.operations[k], generations)
      invariant forall j, k | 0 <= j < k < i :: v.operations[j].id != v.operations[k].id
      invariant forall id :: id in seen <==> OperationIndex(v.operations, id) < i
    {
      if v.operations[i].id in seen { return false; }
      assert OperationIndex(v.operations, v.operations[i].id) == i;
      if !OperationFits(v, v.operations[i], generations) { return false; }
      seen := seen + {v.operations[i].id};
    }
    return true;
  }

  method OperationsValid(v: Target, generations: map<Token, nat>) returns (ok: bool)
    requires Remembered(v.runs, generations)
    ensures ok == ((forall i | 0 <= i < |v.operations| :: ValidOperation(v, v.operations[i]))
            && DistinctOperations(v.operations))
  {
    ok := OperationsFit(v, generations);
    forall i | 0 <= i < |v.operations|
      ensures OperationFits(v, v.operations[i], generations) <==> ValidOperation(v, v.operations[i])
    {
      FitsIsValid(v, v.operations[i], generations);
    }
  }

  /** A sequence that counts from one up to the current number, every element valid. */
  method TargetGenerationsValid(v: Target) returns (ok: bool)
    ensures ok == (&& v.current != 0 && |v.generations| == v.current
                   && forall i | 0 <= i < |v.generations| ::
                        v.generations[i].identity.generation == i + 1 && ValidTargetGen(v, v.generations[i]))
  {
    if v.current == 0 || |v.generations| != v.current { return false; }
    for i := 0 to |v.generations|
      invariant forall k | 0 <= k < i ::
        v.generations[k].identity.generation == k + 1 && ValidTargetGen(v, v.generations[k])
    {
      if v.generations[i].identity.generation != i + 1 || !ValidTargetGen(v, v.generations[i]) { return false; }
    }
    return true;
  }

  method RunsValid(v: Target) returns (ok: bool)
    ensures ok == forall i | 0 <= i < |v.runs| :: ValidRun(v, v.runs[i])
  {
    for i := 0 to |v.runs|
      invariant forall k | 0 <= k < i :: ValidRun(v, v.runs[k])
    {
      if !ValidRun(v, v.runs[i]) { return false; }
    }
    return true;
  }

  /** The loops of the target validator, one after the other. */
  method TargetValid(v: Target) returns (ok: bool)
    ensures ok == ValidTarget(v)
  {
    if !ValidTargetHeader(v) { return false; }
    ok := TargetGenerationsValid(v);
    if !ok { return; }
    var distinct, generations := RememberRuns(v.runs);
    if !distinct { return false; }
    ok := RunsValid(v);
    if !ok { return; }
    ok := OperationsValid(v, generations);
  }

  method TargetGenerationsContinue(previous: seq<TargetGen>, next: seq<TargetGen>) returns (ok: bool)
    ensures ok == (&& |previous| <= |next| <= |previous| + 1
                   && forall i | 0 <= i < |previous| :: TargetGenAdvances(previous[i], next[i]))
  {
    if |next| < |previous| || |next| > |previous| + 1 { return false; }
    for i := 0 to |previous|
      invariant forall k | 0 <= k < i :: TargetGenAdvances(previous[k], next[k])
    {
      if !TargetGenAdvances(previous[i], next[i]) { return false; }
    }
    return true;
  }

  method TargetContinues(p: Target, v: Target) returns (ok: bool)
    requires DistinctRuns(v.runs) && DistinctOperations(v.operations)
    ensures ok == TargetAdvances(p, v)
  {
    if p.identity != v.identity || !GenerationAdvances(p.current, v.current) { return false; }
    if !RevisionAdvances(p.revision, v.revision, p.updatedAt, v.updatedAt) { return false; }
    ok := TargetGenerationsContinue(p.generations, v.generations);
    if !ok { return; }
    ok := RunsContinue(p.runs, v.runs);
    if !ok { return; }
    ok := OperationsContinue(p.operations, v.operations);
  }

  method TargetAccepted(s: State, v: Target) returns (ok: bool)
    ensures ok == AcceptsTarget(s, v)
  {
    ok := TargetValid(v);
    if !ok { return; }
    if !LinkedTarget(s, v) { return false; }
    if v.id in s.targets { ok := TargetContinues(s.targets[v.id], v); }
  }

  // ------------------------------------------------------------- agents, execs, incidents

  /** Identities are remembered; a repeated one is refused. */
  method RememberIds(ids: seq<Token>) returns (ok: bool)
    ensures ok == Distinct(ids)
  {
    var seen: set<Token> := {};
    for i := 0 to |ids|
      invariant forall j, k | 0 <= j < k < i :: ids[j] != ids[k]
      invariant forall id :: id in seen <==> id in ids[..i]
    {
      if ids[i] in seen { return false; }
      assert ids[..i + 1] == ids[..i] + [ids[i]];
      seen := seen + {ids[i]};
    }
    return true;
  }

  function Workspaces(generations: seq<AgentGen>): (r: seq<Token>)
    ensures |r| == |generations| && forall k | 0 <= k < |r| :: r[k] == generations[k].identity.workspaceId
  {
    seq(|generations|, k requires 0 <= k < |generations| => generations[k].identity.workspaceId)
  }

  method AgentGenerationsValid(v: Agent) returns (ok: bool)
    ensures ok == (&& v.current != 0 && |v.generations| == v.current
                   && forall i | 0 <= i < |v.generations| ::
                        v.generations[i].identity.generation == i + 1 && ValidAgentGen(v, v.generations[i]))
  {
    if v.current == 0 || |v.generations| != v.current { return false; }
    for i := 0 to |v.generations|
      invariant forall k | 0 <= k < i ::
        v.generations[k].identity.generation == k + 1 && ValidAgentGen(v, v.generations[k])
    {
      if v.generations[i].identity.generation != i + 1 || !ValidAgentGen(v, v.generations[i]) { return false; }
    }
    return true;
  }

  method AgentValid(v: Agent) returns (ok: bool)
    ensures ok == ValidAgent(v)
  {
    if v.id == 0 || v.sessionId == 0 || v.revision < 1 || !OrderedTimes(v.createdAt, v.updatedAt) { return false; }
    ok := AgentGenerationsValid(v);
    if !ok { return; }
    ok := RememberIds(Workspaces(v.generations));
  }

  method AgentGenerationsContinue(previous: seq<AgentGen>, next: seq<AgentGen>) returns (ok: bool)
    ensures ok == (&& |previous| <= |next| <= |previous| + 1
                   && forall i | 0 <= i < |previous| :: AgentGenAdvances(previous[i], next[i]))
  {
    if |next| < |previous| || |next| > |previous| + 1 { return false; }
    for i := 0 to |previous|
      invariant forall k | 0 <= k < i :: AgentGenAdvances(previous[k], next[k])
    {
      if !AgentGenAdvances(previous[i], next[i]) { return false; }
    }
    return true;
  }

  method AgentAccepted(s: State, v: Agent) returns (ok: bool)
    ensures ok == AcceptsAgent(s, v)
  {
    ok := AgentValid(v);
    if !ok { return; }
    if !LinkedAgent(s, v) { return false; }
    if v.id in s.agents {
      var p := s.agents[v.id];
      if p.sessionId != v.sessionId || p.createdAt != v.createdAt { return false; }
      if !GenerationAdvances(p.current, v.current) { return false; }
      if !RevisionAdvances(p.revision, v.revision, p.updatedAt, v.updatedAt) { return false; }
      ok := AgentGenerationsContinue(p.generations, v.generations);
    }
  }

  method ExecAccepted(s: State, v: Exec) returns (ok: bool)
    ensures ok == AcceptsExec(s, v)
  {
    ok := RememberIds(v.incidentIds);
    if !ok || 0 in v.incidentIds { return false; }
    var unlinked := v.(incidentIds := []);
    if !ValidExec(unlinked) || !LinkedExec(s, unlinked) { return false; }
    if v.id in s.execs && !ExecAdvances(s.execs[v.id], v) { return false; }
    for i := 0 to |v.incidentIds|
      invariant forall k | 0 <= k < i :: LinkedExecIncident(s, v, v.incidentIds[k])
    {
      if !LinkedExecIncident(s, v, v.incidentIds[i]) { return false; }
    }
  }

  method HasArtifact(artifacts: seq<Artifact>, artifact: Artifact) returns (found: bool)
    ensures found == (artifact in artifacts)
  {
    for i := 0 to |artifacts|
      invariant artifact !in artifacts[..i]
    {
      if artifacts[i] == artifact { return true; }
    }
    return false;
  }

  method EvidenceContinues(p: Incident, v: Incident) returns (ok: bool)
    ensures ok == EvidenceAdvances(p, v)
  {
    if p.evidence == v.evidence { return true; }
    if !p.state.IncidentOpen? || !v.state.IncidentEvidenceSealed? || v.evidence.bundleId == 0 { return false; }
    if p.evidence.bundleId != 0 && p.evidence.bundleId != v.evidence.bundleId { return false; }
    var before, after := p.evidence.artifacts, v.evidence.artifacts;
    for i := 0 to |before|
      invariant forall k | 0 <= k < i :: before[k] in after
    {
      var found := HasArtifact(after, before[i]);
      if !found { return false; }
    }
    ok := |after| > |before| || (|after| == |before| && p.evidence.bundleId != v.evidence.bundleId);
  }

  method IncidentAccepted(s: State, v: Incident) returns (ok: bool)
    ensures ok == AcceptsIncident(s, v)
  {
    if !ValidIncident(v) || !LinkedIncident(s, v.identity) { return false; }
    if v.id !in s.incidents { return true; }
    var p := s.incidents[v.id];
    if p.identity != v.identity { return false; }
    ok := EvidenceContinues(p, v);
    if !ok { return; }
    ok := StateAdvances(p.revision, v.revision, p.updatedAt, v.updatedAt, p.state == v.state,
                        IncidentStep(p.state, v.state));
  }

  /** Whether a record may enter the maps, by the validator of its kind. */
  method Accepted(s: State, record: Control) returns (ok: bool)
    ensures ok == Accepts(s, record)
  {
    if record.aggregateId != record.body.Id() || record.revision != record.body.Revision() { return false; }
    match record.body
    case SessionBody(v) => ok := AcceptsSession(s, v);
    case LeaseBody(v) => ok := AcceptsLease(s, v);
    case AgentBody(v) => ok := AgentAccepted(s, v);
    case ExecBody(v) => ok := ExecAccepted(s, v);
    case TargetBody(v) => ok := TargetAccepted(s, v);
    case IncidentBody(v) => ok := IncidentAccepted(s, v);
  }
}

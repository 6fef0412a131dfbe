/** One appended record at a time: when the store and replay both accept it, and
    what it does to the invariant. */
module Landing {
  import opened States
  import opened Records
  import opened Replay
  import opened Commands
  import opened Invariant

  /** The store appends the record, replay accepts it, and the invariant holds again. */
  ghost predicate Lands(s: State, c: Control, t: State) { Appends(s, c, t) && Inv(t) && Evolves(s, t) }

  ghost predicate Appends(s: State, c: Control, t: State) {
    && c.aggregateId != 0 && c.revision == Held(s, c.body) + 1
    && Accepts(s, c) && t == Put(s, c.body)
  }

  // -------------------------------------------------------------------- targets

  ghost predicate RunMoves(p: Run, v: Run) {
    p.id == v.id && RunAdvances(p, v) && (RunTerminal(p.state) ==> v.bundle == p.bundle)
  }

  ghost predicate OperationMoves(p: Operation, v: Operation) { p.id == v.id && OperationAdvances(p, v) }

  /** A revision of a target that keeps every element in its place. */
  ghost predicate TargetMoves(p: Target, v: Target) {
    && p.id == v.id && p.identity == v.identity
    && RevisionAdvances(p.revision, v.revision, p.updatedAt, v.updatedAt)
    && |p.generations| <= |v.generations| <= |p.generations| + 1
    && |p.runs| <= |v.runs| && |p.operations| <= |v.operations|
    && (forall i | 0 <= i < |p.generations| :: TargetGenAdvances(p.generations[i], v.generations[i]))
    && (forall i | 0 <= i < |p.runs| :: RunMoves(p.runs[i], v.runs[i]))
    && (forall i | 0 <= i < |p.operations| :: OperationMoves(p.operations[i], v.operations[i]))
  }

  ghost predicate TargetGrew(p: Target, v: Target) {
    |p.generations| != |v.generations| || |p.runs| != |v.runs| || |p.operations| != |v.operations|
  }

  lemma RunsFollow(p: seq<Run>, v: seq<Run>)
    requires DistinctRuns(v) && |p| <= |v| && forall i | 0 <= i < |p| :: RunMoves(p[i], v[i])
    ensures RunHistory(p, v)
    ensures forall i | 0 <= i < |p| :: RunKept(p[i], v[i])
  {}

  lemma OperationsFollow(p: seq<Operation>, v: seq<Operation>)
    requires DistinctOperations(v) && |p| <= |v| && forall i | 0 <= i < |p| :: OperationMoves(p[i], v[i])
    ensures OperationHistory(p, v)
    ensures forall i | 0 <= i < |p| :: OperationKept(p[i], v[i])
  {}

  lemma TargetMovesAdvances(p: Target, v: Target)
    requires p.current == |p.generations| && v.current == |v.generations|
    requires DistinctRuns(v.runs) && DistinctOperations(v.operations) && TargetMoves(p, v)
    ensures TargetAdvances(p, v) && TargetKept(p, v)
  {
    RunsFollow(p.runs, v.runs);
    OperationsFollow(p.operations, v.operations);
  }

  lemma TargetPutKeeps(s: State, v: Target)
    requires v.id in s.targets ==> TargetKept(s.targets[v.id], v)
    requires v.identity.leaseId in s.leases
    requires !Open(s.leases[v.identity.leaseId]) ==> v.id in s.targets && !TargetGrew(s.targets[v.id], v)
    ensures Evolves(s, Put(s, TargetBody(v)))
  {
    TargetPutOnlyKeeps(s, v);
    forall leaseId | leaseId in s.leases && !Open(s.leases[leaseId])
      ensures NoNewWork(s, Put(s, TargetBody(v)), leaseId)
    {
      TargetPutAdmits(s, v, leaseId);
    }
  }

  lemma TargetPutOnlyKeeps(s: State, v: Target)
    requires v.id in s.targets ==> TargetKept(s.targets[v.id], v)
    ensures Keeps(s, Put(s, TargetBody(v)))
  {}

  lemma TargetPutAdmits(s: State, v: Target, leaseId: Token)
    requires v.identity.leaseId == leaseId ==> v.id in s.targets && !TargetGrew(s.targets[v.id], v)
    ensures NoNewWork(s, Put(s, TargetBody(v)), leaseId)
  {}

  lemma TargetsAfterPut(s: State, v: Target)
    requires TargetsInv(s) && Keeps(s, Put(s, TargetBody(v)))
    requires ValidTarget(v) && LinkedTarget(s, v) && TargetShape(v)
    requires Closed(s.leases[v.identity.leaseId]) ==> TargetDone(v)
    ensures TargetsInv(Put(s, TargetBody(v)))
  {
    var t := Put(s, TargetBody(v));
    forall id | id in t.targets ensures TargetInv(t, id) {
      if id == v.id { TargetLinksKept(s, t, v); } else { TargetFrame(s, t, id); }
    }
  }

  lemma TargetsAfterGrowth(s: State, v: Target)
    requires TargetsInv(s) && Keeps(s, Put(s, TargetBody(v)))
    requires ValidTarget(v) && LinkedTarget(s, v) && TargetShape(v) && Open(s.leases[v.identity.leaseId])
    ensures TargetsInv(Put(s, TargetBody(v)))
  {
    TargetsAfterPut(s, v);
  }

  lemma ExecsFrame(s: State, t: State)
    requires ExecsInv(s) && Keeps(s, t)
    requires s.execs == t.execs && s.leases == t.leases && s.agents == t.agents
    ensures ExecsInv(t)
  {
    forall id | id in t.execs ensures ExecInv(t, id) { ExecFrame(s, t, id); }
  }

  lemma InvAfterTarget(s: State, v: Target)
    requires Inv(s) && Keeps(s, Put(s, TargetBody(v))) && TargetsInv(Put(s, TargetBody(v)))
    ensures Inv(Put(s, TargetBody(v)))
  {
    var t := Put(s, TargetBody(v));
    OwnersFrame(s, t);
    ExecsFrame(s, t);
    IncidentsFrame(s, t);
  }

  lemma AppendTarget(s: State, v: Target)
    requires ValidTarget(v) && LinkedTarget(s, v)
    requires if v.id in s.targets then TargetAdvances(s.targets[v.id], v) else v.revision == 1
    ensures Appends(s, Entry(TargetBody(v)), Put(s, TargetBody(v)))
  {}

  /** A revision of a recorded target that adds nothing to it. */
  lemma LandTarget(s: State, v: Target)
    requires Inv(s) && v.id in s.targets
    requires TargetMoves(s.targets[v.id], v) && !TargetGrew(s.targets[v.id], v)
    requires ValidTarget(v) && LinkedTarget(s, v) && TargetShape(v)
    requires TargetDone(s.targets[v.id]) ==> TargetDone(v)
    ensures Lands(s, Entry(TargetBody(v)), Put(s, TargetBody(v)))
  {
    assert TargetInv(s, v.id);
    TargetMovesAdvances(s.targets[v.id], v);
    AppendTarget(s, v);
    TargetPutKeeps(s, v);
    TargetsAfterPut(s, v);
    InvAfterTarget(s, v);
  }

  /** A recorded target that grows under an open lease. */
  lemma LandGrowth(s: State, v: Target)
    requires Inv(s) && v.id in s.targets && TargetMoves(s.targets[v.id], v)
    requires ValidTarget(v) && LinkedTarget(s, v) && TargetShape(v)
    requires Open(s.leases[v.identity.leaseId])
    ensures Lands(s, Entry(TargetBody(v)), Put(s, TargetBody(v)))
  {
    assert TargetInv(s, v.id);
    TargetMovesAdvances(s.targets[v.id], v);
    AppendTarget(s, v);
    TargetPutKeeps(s, v);
    TargetsAfterGrowth(s, v);
    InvAfterTarget(s, v);
  }

  lemma LandNewTarget(s: State, v: Target)
    requires Inv(s) && v.id !in s.targets && v.revision == 1
    requires ValidTarget(v) && LinkedTarget(s, v) && TargetShape(v)
    requires Open(s.leases[v.identity.leaseId])
    ensures Lands(s, Entry(TargetBody(v)), Put(s, TargetBody(v)))
  {
    AppendTarget(s, v);
    TargetPutKeeps(s, v);
    TargetsAfterGrowth(s, v);
    InvAfterTarget(s, v);
  }

  // ---------------------------------------------------------------------- execs

  ghost predicate ExecReady(s: State, v: Exec)
    requires LinkedExec(s, v)
  {
    && (AgentSettled(s.agents[v.identity.agentId].generations[v.identity.agentGeneration - 1].state) ==>
        ExecTerminal(v.state))
    && (Closed(s.leases[v.identity.leaseId]) ==> ExecTerminal(v.state))
  }

  lemma ExecPutKeeps(s: State, v: Exec)
    requires v.id in s.execs ==> ExecKept(s.execs[v.id], v)
    requires v.identity.leaseId in s.leases
    requires !Open(s.leases[v.identity.leaseId]) ==> v.id in s.execs
    ensures Evolves(s, Put(s, ExecBody(v)))
  {
    EvolvesReflexive(s);
    ExecPutKeepsAll(s, v);
  }

  lemma ExecPutKeepsAll(s: State, v: Exec)
    requires Keeps(s, s) && (v.id in s.execs ==> ExecKept(s.execs[v.id], v))
    ensures Keeps(s, Put(s, ExecBody(v)))
  {}

  lemma ExecsAfterPut(s: State, v: Exec)
    requires ExecsInv(s) && Keeps(s, Put(s, ExecBody(v)))
    requires ValidExec(v) && LinkedExec(s, v) && ExecReady(s, v)
    ensures ExecsInv(Put(s, ExecBody(v)))
  {
    var t := Put(s, ExecBody(v));
    forall id | id in t.execs ensures ExecInv(t, id) {
      if id == v.id { ExecLinksKept(s, t, v); } else { ExecFrame(s, t, id); }
    }
  }

  lemma TargetsFrame(s: State, t: State)
    requires TargetsInv(s) && Keeps(s, t) && s.targets == t.targets && s.leases == t.leases
    ensures TargetsInv(t)
  {
    forall id | id in t.targets ensures TargetInv(t, id) { TargetFrame(s, t, id); }
  }

  lemma InvAfterExec(s: State, v: Exec)
    requires Inv(s) && Keeps(s, Put(s, ExecBody(v))) && ExecsInv(Put(s, ExecBody(v)))
    ensures Inv(Put(s, ExecBody(v)))
  {
    var t := Put(s, ExecBody(v));
    OwnersFrame(s, t);
    TargetsFrame(s, t);
    IncidentsFrame(s, t);
  }

  lemma AppendExec(s: State, v: Exec)
    requires ValidExec(v) && LinkedExec(s, v)
    requires if v.id in s.execs then ExecAdvances(s.execs[v.id], v) else v.revision == 1
    ensures Appends(s, Entry(ExecBody(v)), Put(s, ExecBody(v)))
  {}

  lemma LandExec(s: State, v: Exec)
    requires Inv(s)
    requires if v.id in s.execs then ExecAdvances(s.execs[v.id], v) && ExecKept(s.execs[v.id], v) else v.revision == 1
    requires ValidExec(v) && LinkedExec(s, v) && ExecReady(s, v)
    requires !Open(s.leases[v.identity.leaseId]) ==> v.id in s.execs
    ensures Lands(s, Entry(ExecBody(v)), Put(s, ExecBody(v)))
  {
    AppendExec(s, v);
    ExecPutKeeps(s, v);
    ExecsAfterPut(s, v);
    InvAfterExec(s, v);
  }

  // ------------------------------------------------------------------ incidents

  lemma IncidentPutKeeps(s: State, v: Incident)
    requires v.id in s.incidents ==> IncidentAdvances(s.incidents[v.id], v)
    ensures Evolves(s, Put(s, IncidentBody(v)))
  {}

  lemma IncidentsAfterPut(s: State, v: Incident)
    requires IncidentsInv(s) && Keeps(s, Put(s, IncidentBody(v)))
    requires ValidIncident(v) && LinkedIncident(s, v.identity)
    ensures IncidentsInv(Put(s, IncidentBody(v)))
  {
    var t := Put(s, IncidentBody(v));
    forall id | id in t.incidents ensures IncidentInv(t, id) {
      if id == v.id { IncidentLinksKept(s, t, v.identity); }
      else { assert IncidentInv(s, id); IncidentLinksKept(s, t, s.incidents[id].identity); }
    }
  }

  lemma InvAfterIncident(s: State, v: Incident)
    requires Inv(s) && Keeps(s, Put(s, IncidentBody(v))) && IncidentsInv(Put(s, IncidentBody(v)))
    ensures Inv(Put(s, IncidentBody(v)))
  {
    var t := Put(s, IncidentBody(v));
    OwnersFrame(s, t);
    ExecsFrame(s, t);
    TargetsFrame(s, t);
  }

  lemma AppendIncident(s: State, v: Incident)
    requires ValidIncident(v) && LinkedIncident(s, v.identity)
    requires if v.id in s.incidents then IncidentAdvances(s.incidents[v.id], v) else v.revision == 1
    ensures Appends(s, Entry(IncidentBody(v)), Put(s, IncidentBody(v)))
  {}

  lemma LandIncident(s: State, v: Incident)
    requires Inv(s)
    requires if v.id in s.incidents then IncidentAdvances(s.incidents[v.id], v) else v.revision == 1
    requires ValidIncident(v) && LinkedIncident(s, v.identity)
    ensures Lands(s, Entry(IncidentBody(v)), Put(s, IncidentBody(v)))
  {
    AppendIncident(s, v);
    IncidentPutKeeps(s, v);
    IncidentsAfterPut(s, v);
    InvAfterIncident(s, v);
  }
}

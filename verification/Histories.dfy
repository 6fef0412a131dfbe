/** What replay enforces of every journal, whoever wrote it: a record that is accepted is the
    next revision of its aggregate, and over a whole journal identities never change, states
    never go back, what is written once stays, and nothing is lost. */
module Histories {
  import opened States
  import opened Records
  import opened Replay
  import opened Invariant

  // ---------------------------------------------------------------------- how far states are

  function SessionRank(state: SessionState): nat {
    match state
    case SessionRequested => 0
    case SessionAdmitted => 1
    case SessionLeased => 2
    case SessionReleasing => 3
    case _ => 4
  }

  function LeaseRank(state: LeaseState): nat {
    match state case LeaseActive => 0 case LeaseReleasing => 1 case _ => 2
  }

  function AgentRank(state: AgentState): nat {
    match state
    case AgentProvisioning => 0
    case AgentBooting => 1
    case AgentReady => 2
    case AgentRunning => 3
    case AgentQuiescing => 4
    case _ => 5
  }

  function TargetRank(state: TargetState): nat {
    match state
    case TargetProvisioning => 0
    case TargetInstrumenting => 1
    case TargetReady => 2
    case TargetResettable => 3
    case _ => 4
  }

  function RunRank(state: RunState): nat {
    match state
    case RunRequested => 0
    case RunPreparing => 1
    case RunObserving => 2
    case RunRunning => 3
    case RunFinalizing => 4
    case _ => 5
  }

  function ExecRank(state: ExecState): nat {
    match state case ExecRequested => 0 case ExecStarting => 1 case ExecRunning => 2 case _ => 3
  }

  function OperationRank(state: OperationState): nat {
    match state case OperationRequested => 0 case OperationRunning => 1 case _ => 2
  }

  function IncidentRank(state: IncidentState): nat {
    match state
    case IncidentOpen => 0
    case IncidentEvidenceSealed => 1
    case IncidentRecovering => 2
    case IncidentResolved => 3
  }

  /** A state stays, or moves to one that is further; the last ones, equally far, stay. */
  predicate Onward<S(==)>(p: S, v: S, before: nat, after: nat) { v == p || before < after }

  /** Revisions and times do not go back. */
  predicate NotBefore(before: nat, after: nat, beforeAt: Time, afterAt: Time) { before <= after && beforeAt <= afterAt }

  // -------------------------------------------------------------------- what one becomes

  ghost predicate SessionFollows(p: Session, v: Session) {
    && v.identity == p.identity && NotBefore(p.revision, v.revision, p.updatedAt, v.updatedAt)
    && Onward(p.state, v.state, SessionRank(p.state), SessionRank(v.state))
    && (v.revision == p.revision ==> v == p)
  }

  /** The beginning of a termination is recorded once. */
  predicate SameBeginning(p: Termination, v: Termination) {
    && v.kind == p.kind && v.reason == p.reason && v.beginKey == p.beginKey && v.beginDigest == p.beginDigest
    && v.initiatedRevision == p.initiatedRevision && v.initiatedAt == p.initiatedAt
  }

  ghost predicate LeaseFollows(p: Lease, v: Lease) {
    && LeaseKept(p, v) && NotBefore(p.revision, v.revision, p.updatedAt, v.updatedAt)
    && p.agentGeneration <= v.agentGeneration
    && (!Open(p) ==> v.agentGeneration == p.agentGeneration && SameBeginning(p.termination, v.termination))
    && Onward(p.state, v.state, LeaseRank(p.state), LeaseRank(v.state))
    && (v.revision == p.revision ==> v == p)
  }

  ghost predicate AgentGenFollows(p: AgentGen, v: AgentGen) {
    && AgentGenKept(p, v) && NotBefore(p.revision, v.revision, p.updatedAt, v.updatedAt)
    && Onward(p.state, v.state, AgentRank(p.state), AgentRank(v.state))
    && (v.revision == p.revision ==> v.state == p.state)
  }

  ghost predicate AgentFollows(p: Agent, v: Agent) {
    && v.sessionId == p.sessionId && v.createdAt == p.createdAt && p.current <= v.current
    && NotBefore(p.revision, v.revision, p.updatedAt, v.updatedAt)
    && |p.generations| <= |v.generations|
    && (forall i | 0 <= i < |p.generations| :: AgentGenFollows(p.generations[i], v.generations[i]))
    && (v.revision == p.revision ==> v == p)
  }

  /** Replay does not look at the outcome and the incidents of an exec. */
  ghost predicate ExecFollows(p: Exec, v: Exec) {
    && v.identity == p.identity && NotBefore(p.revision, v.revision, p.updatedAt, v.updatedAt)
    && Onward(p.state, v.state, ExecRank(p.state), ExecRank(v.state))
    && (v.revision == p.revision ==> v == p)
  }

  ghost predicate TargetGenFollows(p: TargetGen, v: TargetGen) {
    && TargetGenKept(p, v) && NotBefore(p.revision, v.revision, p.updatedAt, v.updatedAt)
    && Onward(p.state, v.state, TargetRank(p.state), TargetRank(v.state))
    && (v.revision == p.revision ==> v.state == p.state)
  }

  /** The bundle of a run is fixed at each revision of the run. */
  ghost predicate RunFollows(p: Run, v: Run) {
    && v.id == p.id && v.identity == p.identity && NotBefore(p.revision, v.revision, p.updatedAt, v.updatedAt)
    && Onward(p.state, v.state, RunRank(p.state), RunRank(v.state))
    && (!p.binding.Empty() ==> v.binding == p.binding)
    && (v.revision == p.revision ==> v.state == p.state && v.bundle == p.bundle)
  }

  ghost predicate OperationFollows(p: Operation, v: Operation) {
    && v.id == p.id && v.identity == p.identity && NotBefore(p.revision, v.revision, p.updatedAt, v.updatedAt)
    && Onward(p.state, v.state, OperationRank(p.state), OperationRank(v.state))
    && (v.revision == p.revision ==> v.state == p.state)
  }

  ghost predicate RunGoesOn(p: Run, runs: seq<Run>) { exists r :: r in runs && RunFollows(p, r) }

  ghost predicate OperationGoesOn(p: Operation, operations: seq<Operation>) {
    exists o :: o in operations && OperationFollows(p, o)
  }

  /** Realizations keep their places; runs and operations are found by their identities. */
  ghost predicate TargetFollows(p: Target, v: Target) {
    && v.identity == p.identity && p.current <= v.current
    && NotBefore(p.revision, v.revision, p.updatedAt, v.updatedAt)
    && |p.generations| <= |v.generations| && |p.runs| <= |v.runs| && |p.operations| <= |v.operations|
    && (forall i | 0 <= i < |p.generations| :: TargetGenFollows(p.generations[i], v.generations[i]))
    && (forall r | r in p.runs :: RunGoesOn(r, v.runs))
    && (forall o | o in p.operations :: OperationGoesOn(o, v.operations))
    && (v.revision == p.revision ==> v == p)
  }

  ghost predicate IncidentFollows(p: Incident, v: Incident) {
    && IncidentKept(p, v) && NotBefore(p.revision, v.revision, p.updatedAt, v.updatedAt)
    && Onward(p.state, v.state, IncidentRank(p.state), IncidentRank(v.state))
    && (v.revision == p.revision ==> v == p)
  }

  ghost predicate SessionsContinue(s: map<Token, Session>, t: map<Token, Session>) {
    forall id | id in s :: id in t && SessionFollows(s[id], t[id])
  }

  ghost predicate LeasesContinue(s: map<Token, Lease>, t: map<Token, Lease>) {
    forall id | id in s :: id in t && LeaseFollows(s[id], t[id])
  }

  ghost predicate AgentsContinue(s: map<Token, Agent>, t: map<Token, Agent>) {
    forall id | id in s :: id in t && AgentFollows(s[id], t[id])
  }

  ghost predicate ExecsContinue(s: map<Token, Exec>, t: map<Token, Exec>) {
    forall id | id in s :: id in t && ExecFollows(s[id], t[id])
  }

  ghost predicate TargetsContinue(s: map<Token, Target>, t: map<Token, Target>) {
    forall id | id in s :: id in t && TargetFollows(s[id], t[id])
  }

  ghost predicate IncidentsContinue(s: map<Token, Incident>, t: map<Token, Incident>) {
    forall id | id in s :: id in t && IncidentFollows(s[id], t[id])
  }

  /** Everything recorded is recorded still, and is what it was or a later revision of it. */
  ghost predicate Continues(s: State, t: State) {
    && SessionsContinue(s.sessions, t.sessions) && LeasesContinue(s.leases, t.leases)
    && AgentsContinue(s.agents, t.agents) && ExecsContinue(s.execs, t.execs)
    && TargetsContinue(s.targets, t.targets) && IncidentsContinue(s.incidents, t.incidents)
  }

  // ------------------------------------------------------------------------- one record

  predicate SessionSuccessor(p: Session, v: Session) {
    v.revision == p.revision + 1 && (v.state == p.state || SessionStep(p.state, v.state))
  }

  predicate LeaseSuccessor(p: Lease, v: Lease) {
    && v.revision == p.revision + 1 && (v.state == p.state || LeaseStep(p.state, v.state))
    && !Closed(p) && v.agentGeneration <= p.agentGeneration + 1
  }

  predicate AgentSuccessor(p: Agent, v: Agent) {
    && v.revision == p.revision + 1 && |v.generations| <= |p.generations| + 1
    && forall i | 0 <= i < |p.generations| && i < |v.generations| ::
         var g, h := p.generations[i], v.generations[i];
         h.revision <= g.revision + 1 && (h.state == g.state || AgentStep(g.state, h.state))
  }

  predicate ExecSuccessor(p: Exec, v: Exec) {
    v.revision == p.revision + 1 && (v.state == p.state || ExecStep(p.state, v.state))
  }

  predicate RunSuccessor(p: Run, v: Run) {
    v.revision <= p.revision + 1 && (v.state == p.state || RunStep(p.state, v.state))
  }

  predicate OperationSuccessor(p: Operation, v: Operation) {
    v.revision <= p.revision + 1 && (v.state == p.state || OperationStep(p.state, v.state))
  }

  ghost predicate TargetSuccessor(p: Target, v: Target) {
    && v.revision == p.revision + 1 && |v.generations| <= |p.generations| + 1
    && (forall i | 0 <= i < |p.generations| && i < |v.generations| ::
          var g, h := p.generations[i], v.generations[i];
          h.revision <= g.revision + 1 && (h.state == g.state || TargetStep(g.state, h.state)))
    && (forall q, r | q in p.runs && r in v.runs && q.id == r.id :: RunSuccessor(q, r))
    && (forall q, o | q in p.operations && o in v.operations && q.id == o.id :: OperationSuccessor(q, o))
  }

  predicate IncidentSuccessor(p: Incident, v: Incident) {
    v.revision == p.revision + 1 && (v.state == p.state || IncidentStep(p.state, v.state))
  }

  /** The record is the next revision of what it revises, in the same state or one that the
      table allows; realizations are added one at a time, and a lease begins active. */
  ghost predicate NextRevision(s: State, body: Aggregate) {
    match body
    case SessionBody(v) => v.id in s.sessions ==> SessionSuccessor(s.sessions[v.id], v)
    case LeaseBody(v) =>
      if v.id in s.leases then LeaseSuccessor(s.leases[v.id], v) else v.revision == 1 && v.state.LeaseActive? && Open(v)
    case AgentBody(v) => v.id in s.agents ==> AgentSuccessor(s.agents[v.id], v)
    case ExecBody(v) => v.id in s.execs ==> ExecSuccessor(s.execs[v.id], v)
    case TargetBody(v) => v.id in s.targets ==> TargetSuccessor(s.targets[v.id], v)
    case IncidentBody(v) => v.id in s.incidents ==> IncidentSuccessor(s.incidents[v.id], v)
  }

  lemma RunsNext(p: Target, v: Target, q: Run, r: Run)
    requires DistinctRuns(v.runs) && RunHistory(p.runs, v.runs) && q in p.runs && r in v.runs && q.id == r.id
    ensures RunAdvances(q, r)
  {
    var i :| 0 <= i < |p.runs| && p.runs[i] == q;
    var j :| 0 <= j < |v.runs| && v.runs[j] == r;
    assert RunIndex(v.runs, q.id) == j;
  }

  lemma OperationsNext(p: Target, v: Target, q: Operation, o: Operation)
    requires DistinctOperations(v.operations) && OperationHistory(p.operations, v.operations)
    requires q in p.operations && o in v.operations && q.id == o.id
    ensures OperationAdvances(q, o)
  {
    var i :| 0 <= i < |p.operations| && p.operations[i] == q;
    var j :| 0 <= j < |v.operations| && v.operations[j] == o;
    assert OperationIndex(v.operations, q.id) == j;
  }

  lemma TargetAdvancedOnce(p: Target, v: Target)
    requires ValidTarget(v) && TargetAdvances(p, v)
    ensures TargetSuccessor(p, v)
  {
    forall q, r | q in p.runs && r in v.runs && q.id == r.id ensures RunSuccessor(q, r) { RunsNext(p, v, q, r); }
    forall q, o | q in p.operations && o in v.operations && q.id == o.id ensures OperationSuccessor(q, o) {
      OperationsNext(p, v, q, o);
    }
  }

  lemma AgentAdvancedOnce(p: Agent, v: Agent)
    requires AgentAdvances(p, v)
    ensures AgentSuccessor(p, v)
  {}

  /** A record that replay accepts is the next one, whoever wrote it. */
  lemma AcceptedIsNext(s: State, c: Control)
    requires Accepts(s, c)
    ensures NextRevision(s, c.body)
  {
    match c.body
    case AgentBody(v) => if v.id in s.agents { AgentAdvancedOnce(s.agents[v.id], v); }
    case TargetBody(v) => if v.id in s.targets { TargetAdvancedOnce(s.targets[v.id], v); }
    case _ =>
  }

  lemma SessionAdvanced(p: Session, v: Session)
    requires SessionAdvances(p, v)
    ensures SessionFollows(p, v)
  {}

  lemma LeaseAdvanced(p: Lease, v: Lease)
    requires ValidLease(v) && LeaseAdvances(p, v)
    ensures LeaseFollows(p, v)
  {}

  lemma AgentAdvanced(p: Agent, v: Agent)
    requires AgentAdvances(p, v)
    ensures AgentFollows(p, v)
  {}

  lemma ExecAdvanced(p: Exec, v: Exec)
    requires ExecAdvances(p, v)
    ensures ExecFollows(p, v)
  {}

  lemma RunAdvanced(p: Run, v: Run)
    requires RunAdvances(p, v) && v.id == p.id
    ensures RunFollows(p, v)
  {}

  lemma OperationAdvanced(p: Operation, v: Operation)
    requires OperationAdvances(p, v) && v.id == p.id
    ensures OperationFollows(p, v)
  {}

  lemma TargetAdvanced(p: Target, v: Target)
    requires TargetAdvances(p, v)
    ensures TargetFollows(p, v)
  {
    forall r | r in p.runs ensures RunGoesOn(r, v.runs) {
      var i :| 0 <= i < |p.runs| && p.runs[i] == r;
      var next := v.runs[RunIndex(v.runs, r.id)];
      RunAdvanced(r, next);
      assert next in v.runs;
    }
    forall o | o in p.operations ensures OperationGoesOn(o, v.operations) {
      var i :| 0 <= i < |p.operations| && p.operations[i] == o;
      var next := v.operations[OperationIndex(v.operations, o.id)];
      OperationAdvanced(o, next);
      assert next in v.operations;
    }
  }

  lemma IncidentAdvanced(p: Incident, v: Incident)
    requires IncidentAdvances(p, v)
    ensures IncidentFollows(p, v)
  {}

  lemma TargetReflexive(v: Target)
    ensures TargetFollows(v, v)
  {
    forall r | r in v.runs ensures RunGoesOn(r, v.runs) { assert RunFollows(r, r); }
    forall o | o in v.operations ensures OperationGoesOn(o, v.operations) { assert OperationFollows(o, o); }
  }

  lemma TargetsReflexive(s: map<Token, Target>)
    ensures TargetsContinue(s, s)
  {
    forall id | id in s ensures TargetFollows(s[id], s[id]) { TargetReflexive(s[id]); }
  }

  lemma ContinuesReflexive(s: State)
    ensures Continues(s, s)
  {
    TargetsReflexive(s.targets);
  }

  lemma SessionsGoOn(s: State, v: Session)
    requires AcceptsSession(s, v)
    ensures SessionsContinue(s.sessions, s.sessions[v.id := v])
  {
    if v.id in s.sessions { SessionAdvanced(s.sessions[v.id], v); }
  }

  lemma LeasesGoOn(s: State, v: Lease)
    requires AcceptsLease(s, v)
    ensures LeasesContinue(s.leases, s.leases[v.id := v])
  {
    if v.id in s.leases { LeaseAdvanced(s.leases[v.id], v); }
  }

  lemma AgentsGoOn(s: State, v: Agent)
    requires AcceptsAgent(s, v)
    ensures AgentsContinue(s.agents, s.agents[v.id := v])
  {
    if v.id in s.agents { AgentAdvanced(s.agents[v.id], v); }
  }

  lemma ExecsGoOn(s: State, v: Exec)
    requires AcceptsExec(s, v)
    ensures ExecsContinue(s.execs, s.execs[v.id := v])
  {
    if v.id in s.execs { ExecAdvanced(s.execs[v.id], v); }
  }

  lemma TargetsGoOn(s: State, v: Target)
    requires AcceptsTarget(s, v)
    ensures TargetsContinue(s.targets, s.targets[v.id := v])
  {
    TargetsReflexive(s.targets);
    if v.id in s.targets { TargetAdvanced(s.targets[v.id], v); }
  }

  lemma IncidentsGoOn(s: State, v: Incident)
    requires AcceptsIncident(s, v)
    ensures IncidentsContinue(s.incidents, s.incidents[v.id := v])
  {
    if v.id in s.incidents { IncidentAdvanced(s.incidents[v.id], v); }
  }

  lemma AcceptedContinues(s: State, c: Control)
    requires Accepts(s, c)
    ensures Continues(s, Put(s, c.body))
  {
    ContinuesReflexive(s);
    match c.body
    case SessionBody(v) => SessionsGoOn(s, v);
    case LeaseBody(v) => LeasesGoOn(s, v);
    case AgentBody(v) => AgentsGoOn(s, v);
    case ExecBody(v) => ExecsGoOn(s, v);
    case TargetBody(v) => TargetsGoOn(s, v);
    case IncidentBody(v) => IncidentsGoOn(s, v);
  }

  // ----------------------------------------------------------------------- many records

  lemma LeaseTransitive(p: Lease, v: Lease, w: Lease)
    requires LeaseFollows(p, v) && LeaseFollows(v, w)
    ensures LeaseFollows(p, w)
  {}

  lemma AgentTransitive(p: Agent, v: Agent, w: Agent)
    requires AgentFollows(p, v) && AgentFollows(v, w)
    ensures AgentFollows(p, w)
  {
    forall i | 0 <= i < |p.generations| ensures AgentGenFollows(p.generations[i], w.generations[i]) {
      AgentGenTransitive(p.generations[i], v.generations[i], w.generations[i]);
    }
  }

  lemma AgentGenTransitive(p: AgentGen, v: AgentGen, w: AgentGen)
    requires AgentGenFollows(p, v) && AgentGenFollows(v, w)
    ensures AgentGenFollows(p, w)
  {}

  lemma TargetGenTransitive(p: TargetGen, v: TargetGen, w: TargetGen)
    requires TargetGenFollows(p, v) && TargetGenFollows(v, w)
    ensures TargetGenFollows(p, w)
  {}

  lemma RunTransitive(p: Run, runs: seq<Run>, later: seq<Run>)
    requires RunGoesOn(p, runs) && forall r | r in runs :: RunGoesOn(r, later)
    ensures RunGoesOn(p, later)
  {
    var r :| r in runs && RunFollows(p, r);
    var q :| q in later && RunFollows(r, q);
    assert RunFollows(p, q);
  }

  lemma OperationTransitive(p: Operation, operations: seq<Operation>, later: seq<Operation>)
    requires OperationGoesOn(p, operations) && forall o | o in operations :: OperationGoesOn(o, later)
    ensures OperationGoesOn(p, later)
  {
    var o :| o in operations && OperationFollows(p, o);
    var q :| q in later && OperationFollows(o, q);
    assert OperationFollows(p, q);
  }

  lemma TargetTransitive(p: Target, v: Target, w: Target)
    requires TargetFollows(p, v) && TargetFollows(v, w)
    ensures TargetFollows(p, w)
  {
    forall i | 0 <= i < |p.generations| ensures TargetGenFollows(p.generations[i], w.generations[i]) {
      TargetGenTransitive(p.generations[i], v.generations[i], w.generations[i]);
    }
    forall r | r in p.runs ensures RunGoesOn(r, w.runs) { RunTransitive(r, v.runs, w.runs); }
    forall o | o in p.operations ensures OperationGoesOn(o, w.operations) {
      OperationTransitive(o, v.operations, w.operations);
    }
  }

  lemma IncidentTransitive(p: Incident, v: Incident, w: Incident)
    requires IncidentFollows(p, v) && IncidentFollows(v, w)
    ensures IncidentFollows(p, w)
  {}

  lemma OwnersTransitive(s: State, t: State, u: State)
    requires Continues(s, t) && Continues(t, u)
    ensures SessionsContinue(s.sessions, u.sessions) && LeasesContinue(s.leases, u.leases)
    ensures AgentsContinue(s.agents, u.agents) && ExecsContinue(s.execs, u.execs)
  {
    forall id | id in s.leases ensures LeaseFollows(s.leases[id], u.leases[id]) {
      LeaseTransitive(s.leases[id], t.leases[id], u.leases[id]);
    }
    forall id | id in s.agents ensures AgentFollows(s.agents[id], u.agents[id]) {
      AgentTransitive(s.agents[id], t.agents[id], u.agents[id]);
    }
  }

  lemma ContinuesTransitive(s: State, t: State, u: State)
    requires Continues(s, t) && Continues(t, u)
    ensures Continues(s, u)
  {
    OwnersTransitive(s, t, u);
    forall id | id in s.targets ensures TargetFollows(s.targets[id], u.targets[id]) {
      TargetTransitive(s.targets[id], t.targets[id], u.targets[id]);
    }
    forall id | id in s.incidents ensures IncidentFollows(s.incidents[id], u.incidents[id]) {
      IncidentTransitive(s.incidents[id], t.incidents[id], u.incidents[id]);
    }
  }

  /** Over every journal that replay accepts, from every projection and whoever wrote it,
      nothing is lost and everything follows what it was. */
  lemma {:induction false} JournalContinues(s: State, journal: seq<Control>)
    requires Replayed(s, journal).Some?
    ensures Continues(s, Replayed(s, journal).value)
    decreases |journal|
  {
    if journal == [] {
      ContinuesReflexive(s);
    } else {
      var front, last := journal[..|journal| - 1], journal[|journal| - 1];
      JournalContinues(s, front);
      var t := Replayed(s, front).value;
      AcceptedContinues(t, last);
      ContinuesTransitive(s, t, Put(t, last.body));
    }
  }

  // ---------------------------------------------------------------- what replay lets pass

  /** A target with another bundle for one run, as the next revision of both. */
  function WithBundle(p: Target, k: nat, bundle: Bundle): Target
    requires k < |p.runs|
  {
    var r := p.runs[k];
    p.(runs := p.runs[k := r.(bundle := bundle, revision := r.revision + 1)], revision := p.revision + 1)
  }

  lemma WithBundleFound(p: Target, k: nat, bundle: Bundle, id: Token)
    requires k < |p.runs|
    ensures RunIndex(WithBundle(p, k, bundle).runs, id) == RunIndex(p.runs, id)
  {
    var v := WithBundle(p, k, bundle);
    assert forall n | 0 <= n < |p.runs| :: v.runs[n].id == p.runs[n].id;
  }

  predicate LegalBundle(state: RunState, b: Bundle) {
    && (b.artifact == 0 <==> b.digest == 0) && (b.artifact != 0 ==> b.id != 0)
    && (state.RunCompleted? || state.RunFailed? ==> b.id != 0)
  }

  lemma WithBundleAdvances(p: Target, k: nat, bundle: Bundle)
    requires ValidTarget(p) && k < |p.runs|
    ensures TargetAdvances(p, WithBundle(p, k, bundle))
  {
    var v := WithBundle(p, k, bundle);
    forall i | 0 <= i < |p.runs|
      ensures HasRun(v.runs, p.runs[i].id) && RunAdvances(p.runs[i], v.runs[RunIndex(v.runs, p.runs[i].id)])
    {
      WithBundleFound(p, k, bundle, p.runs[i].id);
      assert RunIndex(p.runs, p.runs[i].id) == i;
    }
    forall i | 0 <= i < |p.operations| ensures OperationIndex(p.operations, p.operations[i].id) == i {}
  }

  lemma WithBundleValid(p: Target, k: nat, bundle: Bundle)
    requires ValidTarget(p) && k < |p.runs|
    ensures ValidTarget(WithBundle(p, k, bundle)) <==> LegalBundle(p.runs[k].state, bundle)
  {
    var v := WithBundle(p, k, bundle);
    assert forall i | 0 <= i < |v.generations| ::
      ValidTargetGen(p, p.generations[i]) ==> ValidTargetGen(v, v.generations[i]);
    assert forall i | 0 <= i < |v.runs| && i != k :: ValidRun(p, p.runs[i]) ==> ValidRun(v, v.runs[i]);
    assert ValidRun(p, p.runs[k]);
    assert ValidRun(v, v.runs[k]) <==> LegalBundle(p.runs[k].state, bundle);
    forall i | 0 <= i < |v.operations| ensures ValidOperation(v, v.operations[i]) {
      assert ValidOperation(p, p.operations[i]);
      WithBundleFound(p, k, bundle, p.operations[i].identity.runId);
    }
  }

  /** Replay does not keep the bundle of a run, not even of one that has ended: the next
      revision may carry any bundle that is legal by itself, and no other. */
  lemma BundleMayBeRewritten(s: State, id: Token, k: nat, bundle: Bundle)
    requires id in s.targets && s.targets[id].id == id && ValidTarget(s.targets[id]) && LinkedTarget(s, s.targets[id])
    requires k < |s.targets[id].runs|
    ensures AcceptsTarget(s, WithBundle(s.targets[id], k, bundle)) <==> LegalBundle(s.targets[id].runs[k].state, bundle)
  {
    var p, v := s.targets[id], WithBundle(s.targets[id], k, bundle);
    WithBundleAdvances(p, k, bundle);
    WithBundleValid(p, k, bundle);
    assert forall i | 0 <= i < |p.runs| :: LinkedRun(s, p, p.runs[i]) ==> LinkedRun(s, v, v.runs[i]);
  }

  /** Nor the outcome of an exec, ended or not. */
  lemma OutcomeMayBeRewritten(s: State, id: Token, outcome: ExecOutcome)
    requires id in s.execs && s.execs[id].id == id && ValidExec(s.execs[id]) && LinkedExec(s, s.execs[id])
    ensures var p := s.execs[id];
            AcceptsExec(s, p.(outcome := outcome, revision := p.revision + 1)) <==>
            (p.state.ExecCompleted? ==> outcome.exitCode == Some(0) && outcome.cleanupConfirmed)
  {
    var p := s.execs[id];
    var v := p.(outcome := outcome, revision := p.revision + 1);
    assert forall k | 0 <= k < |p.incidentIds| ::
      LinkedExecIncident(s, p, p.incidentIds[k]) ==> LinkedExecIncident(s, v, v.incidentIds[k]);
  }
}

/** Termination never deadlocks: whatever live work a terminating lease still has can
    be brought to an end item by item, and then the termination completes. */
module Progress {
  import opened States
  import opened Records
  import opened Replay
  import opened Commands
  import opened Invariant
  import opened Landing
  import opened Chains
  import opened TargetCommands
  import opened TargetGrowth
  import opened AgentCommands
  import opened RecoveryCommands
  import opened LeaseCommands
  import opened TerminationCommands
  import opened CompletionCommands
  import opened Agreement
  import opened Lifecycle
  import opened Safety

  // ------------------------------------------------------------- ending one item

  ghost predicate Draining(s: State, leaseId: Token) {
    leaseId in s.leases && s.leases[leaseId].termination.InProgress()
  }

  const NO_OUTCOME := ExecOutcome(None, 0, false, 0)

  lemma EndExecWrites(s: State, leaseId: Token, id: Token, incidentIds: seq<Token>, env: Env)
    requires LiveExec(s, leaseId, id) && 0 !in incidentIds
    requires forall k | 0 <= k < |incidentIds| ::
            incidentIds[k] in s.incidents && ExecIncidentMatches(s, s.execs[id], incidentIds[k])
    ensures FinalizeExec(s, id, s.execs[id].revision, ExecFailed, NO_OUTCOME, incidentIds, env) ==
            Written([Entry(ExecBody(EndedExec(s.execs[id], incidentIds, env.stamp)))])
  {
    assert ExecStep(s.execs[id].state, ExecFailed) && ExecTerminal(ExecFailed);
    var o := FinalizeExec(s, id, s.execs[id].revision, ExecFailed, NO_OUTCOME, incidentIds, env);
    assert o.Written?;
    assert o.records[0].body.exec == EndedExec(s.execs[id], incidentIds, env.stamp);
  }

  lemma EndExecDrains(s: State, leaseId: Token, id: Token, at: Time)
    requires LiveExec(s, leaseId, id) && s.execs[id].id == id
    ensures var t := Put(s, ExecBody(EndedExec(s.execs[id], [], at)));
            LiveWork(t, leaseId) == LiveWork(s, leaseId) - {ExecWork(id)} && t.leases == s.leases
  {}

  function EndedExec(e: Exec, incidentIds: seq<Token>, at: Time): Exec {
    e.(state := ExecFailed, revision := e.revision + 1, updatedAt := at,
       outcome := NO_OUTCOME.(exitCode := e.outcome.exitCode), incidentIds := Merged(e.incidentIds, incidentIds))
  }

  function EndedRun(t: Target, k: nat, at: Time): Target
    requires k < |t.runs|
  {
    WithRun(t, k, RunMoved(t.runs[k], RunLost, at), at)
  }

  function EndedOperation(t: Target, k: nat, at: Time): Target
    requires k < |t.operations|
  {
    Touched(t.(operations := t.operations[k := OperationMoved(t.operations[k], OperationCancelled, at)]), at)
  }

  lemma EndRunWrites(s: State, leaseId: Token, id: Token, k: nat, env: Env)
    requires LiveRun(s, leaseId, id, k) && Draining(s, leaseId) && DistinctRuns(s.targets[id].runs)
    ensures TransitionRun(s, id, s.targets[id].runs[k].id, s.targets[id].runs[k].revision, RunLost, env) ==
            Written([Entry(TargetBody(EndedRun(s.targets[id], k, env.stamp)))])
  {}

  lemma EndRunDrains(s: State, leaseId: Token, id: Token, k: nat, at: Time)
    requires LiveRun(s, leaseId, id, k) && s.targets[id].id == id && DistinctRuns(s.targets[id].runs)
    ensures var t := Put(s, TargetBody(EndedRun(s.targets[id], k, at)));
            LiveWork(t, leaseId) == LiveWork(s, leaseId) - {RunWork(id, s.targets[id].runs[k].id)}
                && t.leases == s.leases
  {
    var t := Put(s, TargetBody(EndedRun(s.targets[id], k, at)));
    assert LiveExecs(t, leaseId) == LiveExecs(s, leaseId);
    forall i, j: nat ensures LiveRun(t, leaseId, i, j) <==> LiveRun(s, leaseId, i, j) && !(i == id && j == k) {}
    forall i, j: nat | LiveRun(t, leaseId, i, j) ensures t.targets[i].runs[j].id == s.targets[i].runs[j].id {}
    assert LiveRuns(t, leaseId) == LiveRuns(s, leaseId) - {RunWork(id, s.targets[id].runs[k].id)};
    forall i, j: nat ensures LiveOperation(t, leaseId, i, j) <==> LiveOperation(s, leaseId, i, j) {}
    assert LiveOperations(t, leaseId) == LiveOperations(s, leaseId);
  }

  lemma EndOperationWrites(s: State, leaseId: Token, id: Token, k: nat, env: Env)
    requires LiveOperation(s, leaseId, id, k) && Draining(s, leaseId) && DistinctOperations(s.targets[id].operations)
    ensures TransitionOperation(s, id, s.targets[id].operations[k].id, s.targets[id].operations[k].revision,
            OperationCancelled, env) ==
            Written([Entry(TargetBody(EndedOperation(s.targets[id], k, env.stamp)))])
  {}

  lemma EndOperationDrains(s: State, leaseId: Token, id: Token, k: nat, at: Time)
    requires LiveOperation(s, leaseId, id, k) && s.targets[id].id == id && DistinctOperations(s.targets[id].operations)
    ensures var t := Put(s, TargetBody(EndedOperation(s.targets[id], k, at)));
            LiveWork(t, leaseId) == LiveWork(s, leaseId) - {OperationWork(id, s.targets[id].operations[k].id)}
                && t.leases == s.leases
  {
    var t := Put(s, TargetBody(EndedOperation(s.targets[id], k, at)));
    assert LiveExecs(t, leaseId) == LiveExecs(s, leaseId);
    forall i, j: nat ensures LiveRun(t, leaseId, i, j) <==> LiveRun(s, leaseId, i, j) {}
    assert LiveRuns(t, leaseId) == LiveRuns(s, leaseId);
    forall i, j: nat ensures LiveOperation(t, leaseId, i, j) <==>
        LiveOperation(s, leaseId, i, j) && !(i == id && j == k) {}
    forall i, j: nat | LiveOperation(t, leaseId, i, j) ensures t.targets[i].operations[j].id ==
        s.targets[i].operations[j].id {}
    assert LiveOperations(t, leaseId) ==
        LiveOperations(s, leaseId) - {OperationWork(id, s.targets[id].operations[k].id)};
  }

  /** The live items with where they are found. */
  lemma WorkIsLive(s: State, leaseId: Token, w: Work) returns (k: nat)
    requires w in LiveWork(s, leaseId)
    ensures w.ExecWork? ==> LiveExec(s, leaseId, w.id)
    ensures w.RunWork? ==> LiveRun(s, leaseId, w.targetId, k) && s.targets[w.targetId].runs[k].id == w.runId
    ensures w.OperationWork? ==>
            LiveOperation(s, leaseId, w.targetId, k) && s.targets[w.targetId].operations[k].id == w.operationId
  {
    k := 0;
    match w
    case ExecWork(_) =>
    case RunWork(_, _) =>
      assert w in LiveRuns(s, leaseId);
      var id, j: nat :| LiveRun(s, leaseId, id, j) && w == RunWork(id, s.targets[id].runs[j].id);
      k := j;
    case OperationWork(_, _) =>
      assert w in LiveOperations(s, leaseId);
      var id, j: nat :| LiveOperation(s, leaseId, id, j) && w == OperationWork(id, s.targets[id].operations[j].id);
      k := j;
  }

  /** A command that ends one live item of a terminating lease and nothing else. */
  ghost predicate Ends(s: State, leaseId: Token, w: Work, o: Outcome) {
    && o.Written? && |o.records| == 1
    && (var t := Put(s, o.records[0].body); LiveWork(t, leaseId) == LiveWork(s, leaseId) - {w} && t.leases == s.leases)
  }

  ghost predicate SoundWork(s: State) {
    && (forall id | id in s.execs :: s.execs[id].id == id)
    && (forall id | id in s.targets ::
          s.targets[id].id == id && DistinctRuns(s.targets[id].runs) && DistinctOperations(s.targets[id].operations))
  }

  lemma WorkIsSound(s: State)
    requires ExecsInv(s) && TargetsInv(s)
    ensures SoundWork(s)
  {}

  lemma ExecEnds(s: State, leaseId: Token, id: Token, env: Env)
    requires LiveExec(s, leaseId, id) && SoundWork(s)
    ensures Ends(s, leaseId, ExecWork(id),
            HandleExec(s, FinalizeExecCommand(id, s.execs[id].revision, ExecFailed, NO_OUTCOME, []), env))
  {
    EndExecWrites(s, leaseId, id, [], env);
    EndExecDrains(s, leaseId, id, env.stamp);
  }

  lemma RunEnds(s: State, leaseId: Token, id: Token, k: nat, env: Env)
    requires Draining(s, leaseId) && LiveRun(s, leaseId, id, k) && SoundWork(s)
    ensures var r := s.targets[id].runs[k];
            Ends(s, leaseId, RunWork(id, r.id), HandleRun(s, TransitionRunCommand(id, r.id, r.revision, RunLost), env))
  {
    EndRunWrites(s, leaseId, id, k, env);
    EndRunDrains(s, leaseId, id, k, env.stamp);
  }

  lemma OperationEnds(s: State, leaseId: Token, id: Token, k: nat, env: Env)
    requires Draining(s, leaseId) && LiveOperation(s, leaseId, id, k) && SoundWork(s)
    ensures var o := s.targets[id].operations[k];
            Ends(s, leaseId, OperationWork(id, o.id),
                HandleRun(s, TransitionOperationCommand(id, o.id, o.revision, OperationCancelled), env))
  {
    EndOperationWrites(s, leaseId, id, k, env);
    EndOperationDrains(s, leaseId, id, k, env.stamp);
  }

  lemma SomeEnds(s: State, leaseId: Token, w: Work, env: Env) returns (c: Command)
    requires Draining(s, leaseId) && w in LiveWork(s, leaseId) && SoundWork(s)
    ensures !c.Terminating? && Ends(s, leaseId, w, Handle(s, c, env))
  {
    var k := WorkIsLive(s, leaseId, w);
    match w
    case ExecWork(id) =>
      c := OnExec(FinalizeExecCommand(id, s.execs[id].revision, ExecFailed, NO_OUTCOME, []));
      ExecEnds(s, leaseId, id, env);
    case RunWork(id, runId) =>
      c := OnRun(TransitionRunCommand(id, runId, s.targets[id].runs[k].revision, RunLost));
      RunEnds(s, leaseId, id, k, env);
    case OperationWork(id, operationId) =>
      c := OnRun(TransitionOperationCommand(id, operationId, s.targets[id].operations[k].revision, OperationCancelled));
      OperationEnds(s, leaseId, id, k, env);
  }

  // ---------------------------------------------------------------- fresh identities

  lemma {:induction false} AboveAll(xs: set<Token>) returns (n: Token)
    ensures n > 0 && forall x | x in xs :: x < n
    decreases |xs|
  {
    if xs == {} {
      n := 1;
    } else {
      var x :| x in xs;
      var m := AboveAll(xs - {x});
      n := if m > x then m else x + 1;
      assert forall y | y in xs :: y == x || y in xs - {x};
    }
  }

  function RunIds(s: State): set<Token> {
    set id, k | id in s.targets && 0 <= k < |s.targets[id].runs| :: s.targets[id].runs[k].id
  }

  function OperationIds(s: State): set<Token> {
    set id, k | id in s.targets && 0 <= k < |s.targets[id].operations| :: s.targets[id].operations[k].id
  }

  function WorkspaceIds(s: State): set<Token> {
    set id, k | id in s.agents && 0 <= k < |s.agents[id].generations| ::
        s.agents[id].generations[k].identity.workspaceId
  }

  /** The clock and identities for a next command always exist. */
  lemma NextEnv(a: Sys) returns (env: Env)
    ensures env.stamp != 0 && a.clock <= env.guard <= env.stamp && FreshOwners(a.state, env.ids)
            && FreshWork(a.state, env.ids)
  {
    var s := a.state;
    var n := AboveAll(s.sessions.Keys + s.leases.Keys + s.agents.Keys + s.execs.Keys + s.targets.Keys +
                      s.incidents.Keys + RunIds(s) + OperationIds(s) + WorkspaceIds(s));
    env := Env(a.clock + 1, a.clock + 1, Ids(n, n, n, n, n, n, n, n, n));
    forall id, k | id in s.targets && 0 <= k < |s.targets[id].runs| ensures s.targets[id].runs[k].id != n {
      assert s.targets[id].runs[k].id in RunIds(s);
    }
    forall id, k | id in s.targets && 0 <= k < |s.targets[id].operations| ensures s.targets[id].operations[k].id != n {
      assert s.targets[id].operations[k].id in OperationIds(s);
    }
    forall id | id in s.agents ensures FreshWorkspace(s.agents[id], n) {
      forall k | 0 <= k < |s.agents[id].generations| ensures s.agents[id].generations[k].identity.workspaceId != n {
        assert s.agents[id].generations[k].identity.workspaceId in WorkspaceIds(s);
      }
    }
  }

  // --------------------------------------------------------------------- draining

  lemma CommitOne(a: Sys, o: Outcome, at: Time)
    requires o.Written? && |o.records| == 1 && Storable(a.state, o.records) && Replayed(a.state, o.records).Some?
    ensures Commit(a, o, at).state == Put(a.state, o.records[0].body)
  {}

  lemma CommitDrains(a: Sys, leaseId: Token, w: Work, o: Outcome, at: Time)
    requires Agrees(a.state, o) && Ends(a.state, leaseId, w, o) && w in LiveWork(a.state, leaseId)
    ensures |LiveWork(Commit(a, o, at).state, leaseId)| == |LiveWork(a.state, leaseId)| - 1
    ensures Commit(a, o, at).state.leases == a.state.leases
  {
    CommitOne(a, o, at);
  }

  lemma StepDrains(a: Sys, leaseId: Token) returns (m: Move)
    requires Consistent(a) && Draining(a.state, leaseId) && LiveWork(a.state, leaseId) != {}
    ensures Allowed(a, m) && Consistent(Step(a, m)) && Step(a, m).state.leases == a.state.leases
    ensures |LiveWork(Step(a, m).state, leaseId)| == |LiveWork(a.state, leaseId)| - 1
  {
    var env := NextEnv(a);
    var w :| w in LiveWork(a.state, leaseId);
    WorkIsSound(a.state);
    var c := SomeEnds(a.state, leaseId, w, env);
    m := Move(c, env);
    AllowedAgrees(a, m);
    CommitDrains(a, leaseId, w, Handle(a.state, c, env), env.stamp);
    StepConsistent(a, m);
  }

  /** A run that has ended some number of live items of a lease, and nothing else of it. */
  ghost predicate Drained(a: Sys, b: Sys, leaseId: Token, n: nat) {
    && Consistent(b) && b.state.leases == a.state.leases
    && |LiveWork(b.state, leaseId)| == |LiveWork(a.state, leaseId)| - n
  }

  lemma DrainsOneMore(a: Sys, b: Sys, leaseId: Token, n: nat, next: nat) returns (m: Move)
    requires Drained(a, b, leaseId, n) && Draining(a.state, leaseId) && next == n + 1 <= |LiveWork(a.state, leaseId)|
    ensures Allowed(b, m) && Drained(a, Step(b, m), leaseId, next)
  {
    m := StepDrains(b, leaseId);
  }

  ghost predicate DrainedBy(a: Sys, moves: seq<Move>, leaseId: Token) {
    AllAllowed(a, moves) && Drained(a, After(a, moves), leaseId, |moves|)
  }

  lemma DrainedByOneMore(a: Sys, front: seq<Move>, leaseId: Token, next: nat) returns (m: Move)
    requires DrainedBy(a, front, leaseId) && Draining(a.state, leaseId)
            && next == |front| + 1 <= |LiveWork(a.state, leaseId)|
    ensures DrainedBy(a, front + [m], leaseId)
  {
    m := DrainsOneMore(a, After(a, front), leaseId, |front|, next);
    AfterOneMore(a, front, m);
  }

  /** Any number of live items can be ended by as many commands. */
  lemma {:induction false} Drains(a: Sys, leaseId: Token, n: nat) returns (moves: seq<Move>)
    requires Consistent(a) && Draining(a.state, leaseId) && n <= |LiveWork(a.state, leaseId)|
    ensures |moves| == n && DrainedBy(a, moves, leaseId)
  {
    if n == 0 {
      moves := [];
      AfterNothing(a);
    } else {
      var front := Drains(a, leaseId, n - 1);
      var m := DrainedByOneMore(a, front, leaseId, n);
      moves := front + [m];
    }
  }

  // -------------------------------------------------------------------- completing

  /** Once the work is done, completion meets none of its error cases. */
  lemma CompletionSucceeds(s: State, leaseId: Token, env: Env)
    requires Draining(s, leaseId) && Hosting(s, leaseId, env.stamp) && LeaseWorkDone(s, leaseId)
            && AllSound(s, env.stamp)
    ensures CompleteTermination(s, leaseId, s.leases[leaseId].revision, 1, 1, env).Ok?
  {
    RetiresAll(s, TargetIdsOf(s, leaseId), env.stamp);
    RetireAgentIs(AgentOf(s, s.leases[leaseId]), env.stamp);
  }

  lemma {:induction false} RetiresAll(s: State, ids: seq<Token>, at: Time)
    requires AllSound(s, at) && forall id | id in ids :: id in s.targets
    ensures RetireTargets(s, ids, at).Ok?
    decreases |ids|
  {
    if ids != [] {
      RetiresAll(s, ids[..|ids| - 1], at);
      RetireTargetIs(s.targets[ids[|ids| - 1]], at);
    }
  }

  lemma CompletionCloses(s: State, leaseId: Token, env: Env)
    requires Ready(s, env) && Draining(s, leaseId) && LeaseWorkDone(s, leaseId)
    ensures var r := CompleteTermination(s, leaseId, s.leases[leaseId].revision, 1, 1, env);
            && r.Ok? && Storable(s, r.value) && Replayed(s, r.value).Some?
            && leaseId in Replayed(s, r.value).value.leases && Closed(Replayed(s, r.value).value.leases[leaseId])
  {
    TargetsAllSound(s, env.stamp);
    LeasedOf(s, leaseId, env.stamp);
    CompletionSucceeds(s, leaseId, env);
    var u := CompleteReaches(s, leaseId, s.leases[leaseId].revision, 1, 1, env);
  }

  lemma CompletionIsHandled(s: State, leaseId: Token, expected: nat, env: Env)
    requires CompleteTermination(s, leaseId, expected, 1, 1, env).Ok?
    ensures Handle(s, Terminating(CompleteTerminationCommand(leaseId, expected, 1, 1)), env) ==
            Written(CompleteTermination(s, leaseId, expected, 1, 1, env).value)
  {
    CompletionConcludes(s, leaseId, expected, env);
    TerminationHandled(s, CompleteTerminationCommand(leaseId, expected, 1, 1), env);
  }

  lemma CompletionConcludes(s: State, leaseId: Token, expected: nat, env: Env)
    requires CompleteTermination(s, leaseId, expected, 1, 1, env).Ok?
    ensures HandleTermination(s, CompleteTerminationCommand(leaseId, expected, 1, 1), env) ==
            Written(CompleteTermination(s, leaseId, expected, 1, 1, env).value)
  {}

  lemma TerminationHandled(s: State, c: TerminationCommand, env: Env)
    ensures Handle(s, Terminating(c), env) == HandleTermination(s, c, env)
  {}

  lemma CommitCloses(a: Sys, records: seq<Control>, at: Time, leaseId: Token)
    requires Storable(a.state, records) && Replayed(a.state, records).Some?
    requires leaseId in Replayed(a.state, records).value.leases
            && Closed(Replayed(a.state, records).value.leases[leaseId])
    ensures var b := Commit(a, Written(records), at); leaseId in b.state.leases && Closed(b.state.leases[leaseId])
  {}

  lemma CompletingMove(a: Sys, leaseId: Token) returns (m: Move)
    requires Consistent(a) && Draining(a.state, leaseId) && LeaseWorkDone(a.state, leaseId)
    ensures Allowed(a, m) && leaseId in Step(a, m).state.leases && Closed(Step(a, m).state.leases[leaseId])
  {
    var env := NextEnv(a);
    var expected := a.state.leases[leaseId].revision;
    m := Move(Terminating(CompleteTerminationCommand(leaseId, expected, 1, 1)), env);
    AllowedReady(a, m);
    CompletionCloses(a.state, leaseId, env);
    CompletionIsHandled(a.state, leaseId, expected, env);
    CommitCloses(a, CompleteTermination(a.state, leaseId, expected, 1, 1, env).value, env.stamp, leaseId);
  }

  /** From every consistent system with a termination in progress, as many commands as
      there are live items, and one more, close the lease. */
  lemma TerminationNeverDeadlocks(a: Sys, leaseId: Token) returns (moves: seq<Move>)
    requires Consistent(a) && Draining(a.state, leaseId)
    ensures |moves| == |LiveWork(a.state, leaseId)| + 1 && AllAllowed(a, moves)
    ensures leaseId in After(a, moves).state.leases && Closed(After(a, moves).state.leases[leaseId])
  {
    var front := Drains(a, leaseId, |LiveWork(a.state, leaseId)|);
    var m := LastMove(a, After(a, front), leaseId);
    moves := front + [m];
    AfterOneMore(a, front, m);
  }

  lemma LastMove(a: Sys, b: Sys, leaseId: Token) returns (m: Move)
    requires Draining(a.state, leaseId) && Drained(a, b, leaseId, |LiveWork(a.state, leaseId)|)
    ensures Allowed(b, m) && leaseId in Step(b, m).state.leases && Closed(Step(b, m).state.leases[leaseId])
  {
    NoLiveWork(b.state, leaseId);
    m := CompletingMove(b, leaseId);
  }
}

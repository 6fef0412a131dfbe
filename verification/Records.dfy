/** The full-aggregate records kept in the control journal, and the projection
    (six maps) that a core holds in memory.

    A string is a token: 0 is the empty string, and also stands for any text that
    the parsers refuse. A time is a natural number: 0 is the zero time. The fields
    that no revision may change are grouped in an identity. */
module Records {
  import opened States

  type Token = nat
  type Time = nat

  datatype Option<+T> = None | Some(value: T)

  datatype Provenance = Provenance(inputView: Token, policy: Token, capability: Token)

  // ------------------------------------------------------------------- sessions

  datatype SessionIdentity = SessionIdentity(
    owner: Token, acquisitionKey: Token, leaseId: Token, agentId: Token, provenance: Provenance, createdAt: Time)

  datatype Session = Session(
    id: Token, identity: SessionIdentity, state: SessionState, revision: nat, updatedAt: Time)

  // --------------------------------------------------------------------- leases

  datatype TerminationKind = NoKind | ReleaseKind | ExpiryKind

  datatype TerminationState =
    | NotTerminating | TerminationReleasing | TerminationExpiring | TerminationReleased | TerminationExpired

  datatype Termination = Termination(
    kind: TerminationKind, state: TerminationState, reason: Token, beginKey: Token, beginDigest: Token,
    initiatedRevision: nat, initiatedAt: Time, completeKey: Token, completeDigest: Token, completedAt: Time)
  {
    predicate Empty() { this == Termination(NoKind, NotTerminating, 0, 0, 0, 0, 0, 0, 0, 0) }
    predicate InProgress() { state.TerminationReleasing? || state.TerminationExpiring? }
    predicate Terminal() { state.TerminationReleased? || state.TerminationExpired? }
  }

  const NO_TERMINATION := Termination(NoKind, NotTerminating, 0, 0, 0, 0, 0, 0, 0, 0)

  datatype LeaseIdentity = LeaseIdentity(sessionId: Token, agentId: Token, provenance: Provenance, createdAt: Time)

  datatype Lease = Lease(
    id: Token, identity: LeaseIdentity, agentGeneration: nat, state: LeaseState, expiresAt: Time,
    termination: Termination, revision: nat, updatedAt: Time)

  // ----------------------------------------------------------- agent workspaces

  datatype AgentBinding = AgentBinding(plan: Token, workspaceKey: Token, agentKey: Token)
  {
    predicate Empty() { plan == 0 && workspaceKey == 0 && agentKey == 0 }
    predicate Complete() { plan != 0 && workspaceKey != 0 && agentKey != 0 }
  }

  datatype AgentGenIdentity = AgentGenIdentity(
    generation: nat, workspaceId: Token, provenance: Provenance, previous: nat, recoveryIncident: Token,
        createdAt: Time)

  datatype AgentGen = AgentGen(
    identity: AgentGenIdentity, binding: AgentBinding, state: AgentState, revision: nat, updatedAt: Time)

  datatype Agent = Agent(
    id: Token, sessionId: Token, createdAt: Time, current: nat, revision: nat, updatedAt: Time,
    generations: seq<AgentGen>)

  // ---------------------------------------------------------------------- execs

  datatype ExecIdentity = ExecIdentity(
    sessionId: Token, leaseId: Token, agentId: Token, agentGeneration: nat, command: Token, createdAt: Time)

  datatype ExecOutcome = ExecOutcome(exitCode: Option<int>, signal: Token, cleanupConfirmed: bool, error: Token)

  datatype Exec = Exec(
    id: Token, identity: ExecIdentity, state: ExecState, revision: nat, outcome: ExecOutcome,
    incidentIds: seq<Token>, updatedAt: Time)

  // -------------------------------------------------------------------- targets

  datatype Binding = Binding(plan: Token, key: Token)
  {
    predicate Empty() { plan == 0 && key == 0 }
    predicate Complete() { plan != 0 && key != 0 }
  }

  datatype TargetGenIdentity = TargetGenIdentity(
    generation: nat, policy: Token, capability: Token, previous: nat, recoveryIncident: Token, createdAt: Time)

  datatype TargetGen = TargetGen(
    identity: TargetGenIdentity, binding: Binding, state: TargetState, revision: nat, updatedAt: Time)

  datatype Bundle = Bundle(id: Token, artifact: Token, digest: Token)

  datatype RunIdentity = RunIdentity(
    generation: nat, agentId: Token, agentGeneration: nat, materialization: Token, createdAt: Time)

  datatype Run = Run(
    id: Token, identity: RunIdentity, binding: Binding, state: RunState, revision: nat, bundle: Bundle,
    incidentIds: seq<Token>, updatedAt: Time)

  datatype OperationIdentity = OperationIdentity(runId: Token, generation: nat, description: Token, createdAt: Time)

  datatype Operation = Operation(
    id: Token, identity: OperationIdentity, state: OperationState, revision: nat, updatedAt: Time)

  datatype TargetIdentity = TargetIdentity(
    sessionId: Token, leaseId: Token, creationKey: Token, template: Token, kind: Token, createdAt: Time)

  datatype Target = Target(
    id: Token, identity: TargetIdentity, current: nat, revision: nat, updatedAt: Time,
    generations: seq<TargetGen>, runs: seq<Run>, operations: seq<Operation>)

  // ------------------------------------------------------------------ incidents

  datatype Artifact = Artifact(reference: Token, digest: Token, metadata: Token)

  datatype Evidence = Evidence(bundleId: Token, artifacts: seq<Artifact>)

  datatype Resource = TargetResource | AgentResource

  /** A recovery action names the intended recovery of a resource, its physical
      execution, or anything else. */
  datatype Action =
    | Intended(resource: Resource, strategy: Token)
    | Physical(resource: Resource, strategy: Token)
    | Remark(text: Token)

  datatype IncidentIdentity = IncidentIdentity(
    sessionId: Token, leaseId: Token, agentId: Token, agentGeneration: nat, execId: Token,
    targetId: Token, targetGeneration: nat, runId: Token, detail: Token, occurredAt: Time)

  datatype Incident = Incident(
    id: Token, identity: IncidentIdentity, evidence: Evidence, recoveryActions: set<Action>,
    acknowledgements: set<Token>, state: IncidentState, revision: nat, updatedAt: Time)

  // ----------------------------------------------------------------- projection

  datatype State = State(
    sessions: map<Token, Session>, leases: map<Token, Lease>, agents: map<Token, Agent>,
    execs: map<Token, Exec>, targets: map<Token, Target>, incidents: map<Token, Incident>)

  const EMPTY := State(map[], map[], map[], map[], map[], map[])

  datatype Aggregate =
    | SessionBody(session: Session)
    | LeaseBody(lease: Lease)
    | AgentBody(agent: Agent)
    | ExecBody(exec: Exec)
    | TargetBody(target: Target)
    | IncidentBody(incident: Incident)
  {
    function Id(): Token {
      match this
      case SessionBody(v) => v.id
      case LeaseBody(v) => v.id
      case AgentBody(v) => v.id
      case ExecBody(v) => v.id
      case TargetBody(v) => v.id
      case IncidentBody(v) => v.id
    }

    function Revision(): nat {
      match this
      case SessionBody(v) => v.revision
      case LeaseBody(v) => v.revision
      case AgentBody(v) => v.revision
      case ExecBody(v) => v.revision
      case TargetBody(v) => v.revision
      case IncidentBody(v) => v.revision
    }

    function UpdatedAt(): Time {
      match this
      case SessionBody(v) => v.updatedAt
      case LeaseBody(v) => v.updatedAt
      case AgentBody(v) => v.updatedAt
      case ExecBody(v) => v.updatedAt
      case TargetBody(v) => v.updatedAt
      case IncidentBody(v) => v.updatedAt
    }

    predicate SameAggregate(other: Aggregate) {
      Id() == other.Id() &&
      match this
      case SessionBody(_) => other.SessionBody?
      case LeaseBody(_) => other.LeaseBody?
      case AgentBody(_) => other.AgentBody?
      case ExecBody(_) => other.ExecBody?
      case TargetBody(_) => other.TargetBody?
      case IncidentBody(_) => other.IncidentBody?
    }
  }

  /** One journal entry: the envelope and the whole aggregate. */
  datatype Control = Control(aggregateId: Token, revision: nat, body: Aggregate)

  function Entry(body: Aggregate): Control { Control(body.Id(), body.Revision(), body) }

  // -------------------------------------------------------------------- lookups

  /** The first run with an identity; |runs| when there is none. */
  function RunIndex(runs: seq<Run>, id: Token): (i: nat)
    ensures i <= |runs|
    ensures i < |runs| ==> runs[i].id == id
    ensures forall j | 0 <= j < i :: runs[j].id != id
  {
    if |runs| == 0 || runs[0].id == id then 0 else 1 + RunIndex(runs[1..], id)
  }

  function OperationIndex(operations: seq<Operation>, id: Token): (i: nat)
    ensures i <= |operations|
    ensures i < |operations| ==> operations[i].id == id
    ensures forall j | 0 <= j < i :: operations[j].id != id
  {
    if |operations| == 0 || operations[0].id == id then 0 else 1 + OperationIndex(operations[1..], id)
  }

  function AgentGenIndex(generations: seq<AgentGen>, generation: nat): (i: nat)
    ensures i <= |generations|
    ensures i < |generations| ==> generations[i].identity.generation == generation
    ensures forall j | 0 <= j < i :: generations[j].identity.generation != generation
  {
    if |generations| == 0 || generations[0].identity.generation == generation then 0
    else 1 + AgentGenIndex(generations[1..], generation)
  }

  function TargetGenIndex(generations: seq<TargetGen>, generation: nat): (i: nat)
    ensures i <= |generations|
    ensures i < |generations| ==> generations[i].identity.generation == generation
    ensures forall j | 0 <= j < i :: generations[j].identity.generation != generation
  {
    if |generations| == 0 || generations[0].identity.generation == generation then 0
    else 1 + TargetGenIndex(generations[1..], generation)
  }

  predicate HasRun(runs: seq<Run>, id: Token) { RunIndex(runs, id) < |runs| }

  predicate Distinct(xs: seq<Token>) { forall i, j | 0 <= i < j < |xs| :: xs[i] != xs[j] }

  // ---------------------------------------------------------- normalised listings

  predicate Ascending(xs: seq<Token>) { forall i, j | 0 <= i < j < |xs| :: xs[i] < xs[j] }

  function Insert(x: Token, xs: seq<Token>): (r: seq<Token>)
    requires Ascending(xs)
    ensures Ascending(r)
    ensures forall y :: y in r <==> y == x || y in xs
  {
    if xs == [] || x < xs[0] then [x] + xs
    else if x == xs[0] then xs
    else
      var rest := Insert(x, xs[1..]);
      InsertedLater(x, xs, rest);
      [xs[0]] + rest
  }

  lemma InsertedLater(x: Token, xs: seq<Token>, rest: seq<Token>)
    requires xs != [] && Ascending(xs) && xs[0] < x
    requires Ascending(rest) && forall y :: y in rest <==> y == x || y in xs[1..]
    ensures Ascending([xs[0]] + rest)
    ensures forall y :: y in [xs[0]] + rest <==> y == x || y in xs
  {
    assert xs == [xs[0]] + xs[1..];
    forall k | 0 <= k < |rest| ensures xs[0] < rest[k] {
      assert rest[k] in rest;
    }
  }

  /** Sorted, without repetitions, with the same members. */
  function Normalized(xs: seq<Token>): (r: seq<Token>)
    ensures Ascending(r)
    ensures forall y :: y in r <==> y in xs
  {
    if xs == [] then [] else Insert(xs[0], Normalized(xs[1..]))
  }

  function Merged(current: seq<Token>, more: seq<Token>): (r: seq<Token>)
    ensures Ascending(r) && Distinct(r)
    ensures forall y :: y in r <==> y in current || y in more
  {
    Normalized(current + more)
  }

  predicate IsMinimum(xs: set<Token>, m: Token) { m in xs && forall y | y in xs :: m <= y }

  lemma {:induction false} MinimumExists(xs: set<Token>)
    requires xs != {}
    ensures exists m :: IsMinimum(xs, m)
  {
    var x :| x in xs;
    var rest := xs - {x};
    assert forall y | y in xs :: y == x || y in rest;
    if rest == {} {
      assert IsMinimum(xs, x);
    } else {
      MinimumExists(rest);
      var n :| IsMinimum(rest, n);
      assert IsMinimum(xs, if n < x then n else x);
    }
  }

  /** The members of a set in ascending order. */
  function Listed(xs: set<Token>): (r: seq<Token>)
    ensures Ascending(r)
    ensures forall y :: y in r <==> y in xs
  {
    if xs == {} then []
    else
      MinimumExists(xs);
      var m :| IsMinimum(xs, m);
      var rest := Listed(xs - {m});
      assert forall k | 0 <= k < |rest| :: rest[k] in rest && m < rest[k];
      [m] + rest
  }
}

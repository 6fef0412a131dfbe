/** The core as an object: six maps and a position in the journal, changed only by
    replaying records that the store has committed. */
module Core {
  import opened States
  import opened Records
  import opened Replay
  import opened Commands
  import opened Lifecycle
  import opened Checks
  import Handlers
  import opened Replicas
  import opened Interleavings

  /** The journal and the replies to idempotent requests, written in one transaction. */
  class Store {
    var journal: seq<Control>
    var replies: map<Name, Reply>

    constructor ()
      ensures journal == [] && replies == map[]
    {
      journal, replies := [], map[];
    }

    /** At most `limit` records after a position. */
    method Records(after: nat, limit: nat) returns (records: seq<Control>)
      requires after <= |journal|
      ensures after + |records| <= |journal| && records == journal[after..after + |records|]
      ensures |records| == if |journal| - after < limit then |journal| - after else limit
    {
      var end := if |journal| - after < limit then |journal| else after + limit;
      records := journal[after..end];
    }

    /** A transaction: both writes happen or neither does. */
    method CommitTransaction(name: Name, reply: Reply)
      modifies this
      ensures journal == old(journal) + reply.records && replies == old(replies)[name := reply]
    {
      journal := journal + reply.records;
      replies := replies[name := reply];
    }
  }

  class Core {
    const store: Store
    var lastSequence: nat
    var sessions: map<Token, Session>
    var leases: map<Token, Lease>
    var agents: map<Token, Agent>
    var execs: map<Token, Exec>
    var targets: map<Token, Target>
    var incidents: map<Token, Incident>

    function View(): State
      reads this
    {
      State(sessions, leases, agents, execs, targets, incidents)
    }

    function Holds(): Replica
      reads this
    {
      Replica(lastSequence, View())
    }

    /** The store, this core, and a reading of the clock. */
    function Around(clock: Time): World
      reads this, store
    {
      World(store.journal, store.replies, Holds(), clock)
    }

    predicate Placed()
      reads this, store
    {
      lastSequence <= |store.journal|
    }

    /** A restarted core: empty maps at the start of the journal, not yet synchronised. */
    constructor (store: Store)
      ensures this.store == store && Holds() == FRESH
    {
      this.store := store;
      lastSequence := 0;
      sessions, leases, agents := map[], map[], map[];
      execs, targets, incidents := map[], map[], map[];
    }

    /** One record is validated against the maps and then enters the map of its kind. */
    method Apply(record: Control) returns (ok: bool)
      modifies this
      ensures ok == Accepts(old(View()), record)
      ensures View() == if ok then Put(old(View()), record.body) else old(View())
      ensures lastSequence == old(lastSequence)
    {
      ok := Accepted(View(), record);
      if !ok { return; }
      match record.body
      case SessionBody(v) => sessions := sessions[v.id := v];
      case LeaseBody(v) => leases := leases[v.id := v];
      case AgentBody(v) => agents := agents[v.id := v];
      case ExecBody(v) => execs := execs[v.id := v];
      case TargetBody(v) => targets := targets[v.id := v];
      case IncidentBody(v) => incidents := incidents[v.id := v];
    }

    /** One batch, record by record; stops at the first record that is refused. */
    method ApplyBatch(records: seq<Control>) returns (ok: bool)
      requires lastSequence + |records| <= |store.journal|
      requires records == store.journal[lastSequence..lastSequence + |records|]
      modifies this
      ensures (Holds(), ok) == Fed(store.journal, old(Holds()), old(lastSequence) + |records|)
    {
      ghost var upto := lastSequence + |records|;
      ghost var start := lastSequence;
      for i := 0 to |records|
        invariant lastSequence == start + i
        invariant Fed(store.journal, Holds(), upto) == Fed(store.journal, old(Holds()), upto)
      {
        ok := Apply(records[i]);
        if !ok { return; }
        lastSequence := lastSequence + 1;
      }
      ok := true;
    }

    /** One batch: either it decides the synchronisation, or there may be more to read. */
    method SyncBatch(ghost left: nat) returns (decided: Option<SyncResult>)
      requires Placed() && left > 0
      modifies this
      ensures Placed()
      ensures Synchronised(store.journal, old(Holds()), left) ==
              if decided.Some? then (Holds(), decided.value) else Synchronised(store.journal, Holds(), left - 1)
    {
      var records := store.Records(lastSequence, BATCH);
      var ok := ApplyBatch(records);
      decided := if !ok then Some(Refused) else if |records| < BATCH then Some(UpToDate) else None;
    }

    /** Reads the journal in batches until a short one. The store may fail to deliver a
        batch: `deliveries` is how many it delivers. */
    method SyncLocked(deliveries: nat) returns (result: SyncResult)
      requires Placed()
      modifies this
      ensures Placed() && (Holds(), result) == Synchronised(store.journal, old(Holds()), deliveries)
    {
      var left: nat := deliveries;
      while left > 0
        invariant Placed()
        invariant Synchronised(store.journal, Holds(), left) == Synchronised(store.journal, old(Holds()), deliveries)
      {
        var decided := SyncBatch(left);
        if decided.Some? { return decided.value; }
        left := left - 1;
      }
      result := Interrupted;
    }

    /** The transaction of a request, once for every key. */
    method RunIdempotent(q: Request, ghost clock: Time) returns (answer: Answer)
      modifies store
      ensures (Around(clock), answer) == Transacted(old(Around(clock)), q)
    {
      if q.name in store.replies {
        if store.replies[q.name].request != q.content { return Conflict; }
        return Replay(store.replies[q.name].records);
      }
      var tx := new Handlers.Transaction();
      var r := Handlers.RunCommand(tx, View(), q.move.command, q.move.env);
      if r.Err? { return Failed(r.error); }
      assert tx.records == Handle(View(), q.move.command, q.move.env).records;
      if q.aborted || !Storable(EMPTY, store.journal + tx.records) { return Failed(RevisionConflict); }
      store.CommitTransaction(q.name, Reply(q.content, tx.records));
      return Fresh(tx.records);
    }

    /** A command under the lock: synchronise, unless it is an acquisition, run the
        transaction, and synchronise again. */
    method Attempt(q: Request, ghost clock: Time) returns (answer: Answer)
      requires Placed()
      modifies this, store
      ensures Placed() && (Around(q.move.env.stamp), answer) == Executed(old(Around(clock)), q)
    {
      if !Acquiring(q.move.command) {
        var synced := SyncLocked(q.before);
        if !synced.UpToDate? { return NotSynced(synced); }
      }
      answer := RunIdempotent(q, q.move.env.stamp);
      if answer.Failed? || answer.Conflict? { return; }
      var synced := SyncLocked(q.after);
      if !synced.UpToDate? { answer := NotSynced(synced); }
    }

    /** Whatever the answer, and also when the core could not read to the end: the journal and
        the replies are unchanged, or hold exactly the records and the reply of this command
        in addition, and the maps are the replay of the journal up to the position. */
    method Execute(q: Request, ghost clock: Time) returns (answer: Answer)
      requires Synced(store.journal, Holds())
      modifies this, store
      ensures (Around(q.move.env.stamp), answer) == Executed(old(Around(clock)), q)
      ensures AppendsAtMost(old(Around(clock)), q, Around(q.move.env.stamp))
      ensures StaysSynced(Around(q.move.env.stamp), answer)
    {
      ExecutedSafe(Around(clock), q);
      answer := Attempt(q, clock);
    }
  }

  /** One event: a restart abandons the running core for a new one on the same store. */
  method Perform(core: Core, event: Event, clock: Time) returns (next: Core, at: Time)
    requires Synced(core.store.journal, core.Holds())
    modifies core, core.store
    ensures next.store == core.store && (next == core || fresh(next))
    ensures Synced(next.store.journal, next.Holds()) && next.Around(at) == Acted(old(core.Around(clock)), event).0
  {
    next, at := core, clock;
    match event
    case Execute(q) =>
      var _ := core.Execute(q, clock);
      at := q.move.env.stamp;
    case Sync(deliveries) =>
      SyncSound(core.store.journal, core.Holds(), deliveries);
      var _ := core.SyncLocked(deliveries);
    case Restart(deliveries) =>
      FreshSynced(core.store.journal);
      SyncSound(core.store.journal, FRESH, deliveries);
      next := new Core(core.store);
      var _ := next.SyncLocked(deliveries);
  }

  /** A store and its cores driven through any interleaving: what the objects hold at the
      end is what the model of interleavings says, and the maps are the replay of the journal
      up to the position. */
  method Drive(events: seq<Event>) returns (core: Core, clock: Time)
    ensures core.Around(clock) == Later(BEGINNING, events) && Synced(core.store.journal, core.Holds())
  {
    var store := new Store();
    core := new Core(store);
    clock := 0;
    FreshSynced([]);
    for i := 0 to |events|
      invariant core.Around(clock) == Later(BEGINNING, events[..i]) && Synced(core.store.journal, core.Holds())
      invariant fresh(core) && fresh(core.store)
    {
      assert events[..i + 1][..i] == events[..i];
      core, clock := Perform(core, events[i], clock);
    }
    assert events[..|events|] == events;
  }
}

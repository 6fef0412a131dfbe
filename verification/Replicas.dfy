/** Cores that read a shared journal: what they hold after any interleaving of commands,
    failed transactions, interrupted reads and restarts. */
module Replicas {
  import opened States
  import opened Records
  import opened Replay
  import opened Commands
  import opened Invariant
  import opened Chains
  import opened Limits
  import opened Stamps
  import opened Agreement
  import opened Lifecycle

  const BATCH: nat := 1000

  /** The maps of a core, and the journal position up to which it has read. */
  datatype Replica = Replica(position: nat, view: State)

  const FRESH := Replica(0, EMPTY)

  ghost predicate Synced(journal: seq<Control>, r: Replica) {
    r.position <= |journal| && Replayed(EMPTY, journal[..r.position]) == Some(r.view)
  }

  /** Appending to the journal does not disturb a position already reached. */
  lemma SyncedStays(journal: seq<Control>, more: seq<Control>, r: Replica)
    requires Synced(journal, r)
    ensures Synced(journal + more, r)
  {
    assert (journal + more)[..r.position] == journal[..r.position];
  }

  lemma FreshSynced(journal: seq<Control>)
    ensures Synced(journal, FRESH)
  {
    assert journal[..0] == [];
  }

  function Advanced(r: Replica, c: Control): Replica { Replica(r.position + 1, Put(r.view, c.body)) }

  lemma PrefixNext(journal: seq<Control>, k: nat)
    requires k < |journal|
    ensures journal[..k + 1][..|journal[..k + 1]| - 1] == journal[..k]
            && journal[..k + 1][|journal[..k + 1]| - 1] == journal[k]
  {}

  lemma SyncedAccepts(journal: seq<Control>, r: Replica)
    requires Synced(journal, r) && r.position < |journal| && Accepts(r.view, journal[r.position])
    ensures Synced(journal, Advanced(r, journal[r.position]))
  {
    PrefixNext(journal, r.position);
  }

  lemma SyncedRefuses(journal: seq<Control>, r: Replica)
    requires Synced(journal, r) && r.position < |journal| && !Accepts(r.view, journal[r.position])
    ensures Replayed(EMPTY, journal).None?
  {
    PrefixNext(journal, r.position);
    var rest := journal[r.position + 1..];
    RefusedForever(EMPTY, journal[..r.position + 1], rest);
    assert journal[..r.position + 1] + rest == journal;
  }

  lemma SyncedAll(journal: seq<Control>, r: Replica)
    requires Synced(journal, r) && r.position == |journal|
    ensures Replayed(EMPTY, journal) == Some(r.view)
  {
    assert journal[..|journal|] == journal;
  }

  // ------------------------------------------------------------------- synchronisation

  /** Record after record up to a position; the first that is refused stops it. */
  function Fed(journal: seq<Control>, r: Replica, upto: nat): (f: (Replica, bool))
    requires r.position <= upto <= |journal|
    ensures r.position <= f.0.position <= upto && (f.1 ==> f.0.position == upto)
    decreases upto - r.position
  {
    if r.position == upto then (r, true)
    else if Accepts(r.view, journal[r.position]) then Fed(journal, Advanced(r, journal[r.position]), upto)
    else (r, false)
  }

  datatype SyncResult = UpToDate | Refused | Interrupted

  function BatchEnd(journal: seq<Control>, position: nat): nat
    requires position <= |journal|
  {
    if |journal| - position < BATCH then |journal| else position + BATCH
  }

  /** Batch after batch until a short one; the store delivers only so many of them. */
  function Synchronised(journal: seq<Control>, r: Replica, deliveries: nat): (f: (Replica, SyncResult))
    requires r.position <= |journal|
    ensures r.position <= f.0.position <= |journal| && (f.1.UpToDate? ==> f.0.position == |journal|)
    decreases deliveries
  {
    if deliveries == 0 then (r, Interrupted)
    else
      var upto := BatchEnd(journal, r.position);
      var fed := Fed(journal, r, upto);
      if !fed.1 then (fed.0, Refused)
      else if upto - r.position < BATCH then (fed.0, UpToDate)
      else Synchronised(journal, fed.0, deliveries - 1)
  }

  lemma {:induction false} FedSound(journal: seq<Control>, r: Replica, upto: nat)
    requires Synced(journal, r) && r.position <= upto <= |journal|
    ensures Synced(journal, Fed(journal, r, upto).0)
    ensures !Fed(journal, r, upto).1 ==> Replayed(EMPTY, journal).None?
    decreases upto - r.position
  {
    if r.position < upto {
      if Accepts(r.view, journal[r.position]) {
        SyncedAccepts(journal, r);
        FedSound(journal, Advanced(r, journal[r.position]), upto);
      } else {
        SyncedRefuses(journal, r);
      }
    }
  }

  ghost predicate BatchKeeps(journal: seq<Control>, kept: Replica -> bool, dead: bool, q: Replica) {
    kept(q) && q.position <= |journal| ==>
      var fed := Fed(journal, q, BatchEnd(journal, q.position)); kept(fed.0) && (!fed.1 ==> dead)
  }

  /** Whatever every batch keeps, a synchronisation keeps; if no batch is refused, enough
      deliveries bring it to the end. */
  lemma {:induction false} SyncKeeps(journal: seq<Control>, kept: Replica -> bool, dead: bool, r: Replica,
      deliveries: nat)
    requires kept(r) && r.position <= |journal|
    requires forall q :: BatchKeeps(journal, kept, dead, q)
    ensures var f := Synchronised(journal, r, deliveries);
            && kept(f.0) && (f.1.Refused? ==> dead)
            && (!dead && |journal| - r.position < deliveries * BATCH ==> f.1.UpToDate?)
    decreases deliveries
  {
    if deliveries > 0 {
      assert BatchKeeps(journal, kept, dead, r);
      var fed := Fed(journal, r, BatchEnd(journal, r.position));
      if fed.1 && |journal| - r.position >= BATCH { SyncKeeps(journal, kept, dead, fed.0, deliveries - 1); }
    }
  }

  lemma SyncSteps(journal: seq<Control>, r: Replica, deliveries: nat)
    requires Synced(journal, r)
    ensures var f := Synchronised(journal, r, deliveries);
            && Synced(journal, f.0) && (f.1.Refused? ==> Replayed(EMPTY, journal).None?)
            && (Replayed(EMPTY, journal).Some? && |journal| - r.position < deliveries * BATCH ==> f.1.UpToDate?)
  {
    var kept := (q: Replica) => Synced(journal, q);
    forall q: Replica ensures BatchKeeps(journal, kept, Replayed(EMPTY, journal).None?, q) {
      if kept(q) { FedSound(journal, q, BatchEnd(journal, q.position)); }
    }
    SyncKeeps(journal, kept, Replayed(EMPTY, journal).None?, r, deliveries);
  }

  /** However often the store fails to deliver, the maps are the replay of the journal up to
      the position; a refusal means that no core can ever read the journal. */
  lemma SyncSound(journal: seq<Control>, r: Replica, deliveries: nat)
    requires Synced(journal, r)
    ensures Synced(journal, Synchronised(journal, r, deliveries).0)
    ensures Synchronised(journal, r, deliveries).1.Refused? ==> Replayed(EMPTY, journal).None?
  {
    SyncSteps(journal, r, deliveries);
  }

  /** Enough deliveries for what is left of the journal bring a core up to date. */
  lemma SyncCompletes(journal: seq<Control>, s: State, r: Replica, deliveries: nat)
    requires Synced(journal, r) && Replayed(EMPTY, journal) == Some(s) && |journal| - r.position < deliveries * BATCH
    ensures Synchronised(journal, r, deliveries) == (Replica(|journal|, s), UpToDate)
  {
    SyncSteps(journal, r, deliveries);
    SyncedAll(journal, Synchronised(journal, r, deliveries).0);
  }

  // ---------------------------------------------------------------------- transactions

  type Name = (Token, Token)

  datatype Reply = Reply(request: Token, records: seq<Control>)

  datatype Answer =
    | Fresh(records: seq<Control>)
    | Replay(records: seq<Control>)
    | Failed(error: Error)
    | Conflict
    | NotSynced(result: SyncResult)

  /** The journal and the replies to idempotent requests, the core that is running, and the
      last reading of the clock. */
  datatype World = World(journal: seq<Control>, replies: map<Name, Reply>, replica: Replica, clock: Time)

  const BEGINNING := World([], map[], FRESH, 0)

  /** A request with its idempotency key. `aborted` is a transaction that fails for a reason
      of the store's own; `before` and `after` are the batches delivered around it. */
  datatype Request = Request(name: Name, content: Token, move: Move, aborted: bool, before: nat, after: nat)

  /** Acquisition reads nothing of the maps, and is the one command that does not
      synchronise first. */
  predicate Acquiring(c: Command) { c.Owner? && c.owner.AcquireCommand? }

  function Opened(w: World, q: Request): (f: (Replica, SyncResult))
    requires w.replica.position <= |w.journal|
    ensures f.0.position <= |w.journal|
  {
    if Acquiring(q.move.command) then (w.replica, UpToDate) else Synchronised(w.journal, w.replica, q.before)
  }

  /** The transaction runs once for every key: records and reply are written together. */
  function Transacted(w: World, q: Request): (World, Answer) {
    if q.name in w.replies then
      (w, if w.replies[q.name].request != q.content then Conflict else Replay(w.replies[q.name].records))
    else
      match Handle(w.replica.view, q.move.command, q.move.env)
      case Rejected(error) => (w, Failed(error))
      case Written(records) =>
        if q.aborted || !Storable(EMPTY, w.journal + records) then (w, Failed(RevisionConflict))
        else (w.(journal := w.journal + records, replies := w.replies[q.name := Reply(q.content, records)]),
            Fresh(records))
  }

  lemma TransactedGrows(w: World, q: Request)
    ensures |w.journal| <= |Transacted(w, q).0.journal| && Transacted(w, q).0.replica == w.replica
  {}

  /** A command under the lock: synchronise, run the transaction, synchronise again. */
  function Executed(w: World, q: Request): (f: (World, Answer))
    requires w.replica.position <= |w.journal|
    ensures f.0.replica.position <= |f.0.journal|
  {
    var begun := Opened(w, q);
    var u := w.(replica := begun.0, clock := q.move.env.stamp);
    if !begun.1.UpToDate? then (u, NotSynced(begun.1))
    else
      var done := Transacted(u, q);
      TransactedGrows(u, q);
      if done.1.Failed? || done.1.Conflict? then done
      else
        var closed := Synchronised(done.0.journal, done.0.replica, q.after);
        (done.0.(replica := closed.0), if closed.1.UpToDate? then done.1 else NotSynced(closed.1))
  }

  /** Whatever a request is answered, and also when a core cannot read to the end: journal and
      replies are unchanged, or exactly the records of the command and its reply are appended
      under a key that had none. */
  ghost predicate AppendsAtMost(w: World, q: Request, v: World)
    requires w.replica.position <= |w.journal|
  {
    || (v.journal == w.journal && v.replies == w.replies)
    || (&& q.name !in w.replies && q.name in v.replies && v.replies[q.name].request == q.content
        && var records := v.replies[q.name].records;
        && v.journal == w.journal + records && v.replies == w.replies[q.name := Reply(q.content, records)]
        && Handle(Opened(w, q).0.view, q.move.command, q.move.env) == Written(records)
        && Storable(EMPTY, v.journal))
  }

  lemma TransactedAppends(w: World, q: Request)
    ensures var f := Transacted(w, q);
            && (f.1.Fresh? ==>
                  && q.name !in w.replies && Handle(w.replica.view, q.move.command, q.move.env) == Written(f.1.records)
                  && Storable(EMPTY, w.journal + f.1.records)
                  && f.0 == w.(journal := w.journal + f.1.records,
                      replies := w.replies[q.name := Reply(q.content, f.1.records)]))
            && (!f.1.Fresh? ==> f.0 == w) && !f.1.NotSynced?
  {}

  /** A position once reached stays good through every request, and a refusal means that the
      journal can be read by no core. */
  ghost predicate StaysSynced(v: World, answer: Answer) {
    Synced(v.journal, v.replica) && (answer == NotSynced(Refused) ==> Replayed(EMPTY, v.journal).None?)
  }

  lemma OpenedSynced(w: World, q: Request)
    requires Synced(w.journal, w.replica)
    ensures Synced(w.journal, Opened(w, q).0) && (Opened(w, q).1.Refused? ==> Replayed(EMPTY, w.journal).None?)
  {
    SyncSound(w.journal, w.replica, q.before);
  }

  lemma TransactedSynced(w: World, q: Request)
    requires Synced(w.journal, w.replica)
    ensures Synced(Transacted(w, q).0.journal, w.replica)
  {
    TransactedAppends(w, q);
    if Transacted(w, q).1.Fresh? { SyncedStays(w.journal, Transacted(w, q).1.records, w.replica); }
  }

  lemma ExecutedSafe(w: World, q: Request)
    requires Synced(w.journal, w.replica)
    ensures var f := Executed(w, q); AppendsAtMost(w, q, f.0) && StaysSynced(f.0, f.1)
  {
    OpenedSynced(w, q);
    if Opened(w, q).1.UpToDate? {
      var u := w.(replica := Opened(w, q).0, clock := q.move.env.stamp);
      TransactedAppends(u, q);
      TransactedSynced(u, q);
      SyncSound(Transacted(u, q).0.journal, u.replica, q.after);
    }
  }
}

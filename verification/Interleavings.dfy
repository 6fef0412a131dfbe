/** Restart equivalence: over every interleaving of commands, failed transactions,
    interrupted reads and restarts, the journal stays readable, it is the journal of a run
    of the model, and every core that reads it to its end holds the same maps. */
module Interleavings {
  import opened States
  import opened Records
  import opened Replay
  import opened Commands
  import opened Invariant
  import opened Chains
  import opened Stamps
  import opened Agreement
  import opened Lifecycle
  import opened Replicas

  /** What the whole journal says. */
  function Whole(journal: seq<Control>): State {
    match Replayed(EMPTY, journal) case Some(s) => s case None => EMPTY
  }

  function SysOf(w: World): Sys { Sys(w.journal, Whole(w.journal), w.clock) }

  ghost predicate Sound(w: World) { Consistent(SysOf(w)) && Synced(w.journal, w.replica) }

  datatype Event = Execute(request: Request) | Sync(deliveries: nat) | Restart(deliveries: nat)

  datatype Reaction = Answered(answer: Answer) | Read(result: SyncResult)

  predicate Placed(w: World) { w.replica.position <= |w.journal| }

  /** A restarted core has empty maps and reads from the start of the journal. */
  function Acted(w: World, event: Event): (r: (World, Reaction))
    requires Placed(w)
    ensures Placed(r.0)
  {
    match event
    case Execute(q) => var f := Executed(w, q); (f.0, Answered(f.1))
    case Sync(deliveries) => var f := Synchronised(w.journal, w.replica, deliveries); (w.(replica := f.0), Read(f.1))
    case Restart(deliveries) => var f := Synchronised(w.journal, FRESH, deliveries); (w.(replica := f.0), Read(f.1))
  }

  ghost predicate Permitted(w: World, event: Event) { event.Execute? ==> Allowed(SysOf(w), event.request.move) }

  function Later(w: World, events: seq<Event>): (v: World)
    requires Placed(w)
    ensures Placed(v)
  {
    if events == [] then w else Acted(Later(w, events[..|events| - 1]), events[|events| - 1]).0
  }

  ghost predicate AllPermitted(w: World, events: seq<Event>)
    requires Placed(w)
  {
    events == [] ||
    (AllPermitted(w, events[..|events| - 1]) && Permitted(Later(w, events[..|events| - 1]), events[|events| - 1]))
  }

  // ------------------------------------------------------------------------- one request

  lemma AcquireIsBlind(s: State, t: State, c: Command, env: Env)
    requires Acquiring(c)
    ensures Handle(s, c, env) == Handle(t, c, env)
  {}

  lemma SoundReads(w: World, r: Replica, deliveries: nat)
    requires Sound(w) && Synced(w.journal, r)
    ensures var f := Synchronised(w.journal, r, deliveries);
            && Synced(w.journal, f.0) && !f.1.Refused? && (f.1.UpToDate? ==> f.0.view == Whole(w.journal))
  {
    SyncSound(w.journal, r, deliveries);
    var f := Synchronised(w.journal, r, deliveries);
    if f.1.UpToDate? { SyncedAll(w.journal, f.0); }
  }

  /** The first synchronisation of a request never meets a record that it cannot read, and
      afterwards the command sees what the whole journal says. */
  lemma OpenedReads(w: World, q: Request)
    requires Sound(w)
    ensures var f := Opened(w, q);
            && Synced(w.journal, f.0) && !f.1.Refused?
            && (f.1.UpToDate? ==>
                  Handle(f.0.view, q.move.command, q.move.env) == Handle(Whole(w.journal), q.move.command, q.move.env))
  {
    if Acquiring(q.move.command) {
      AcquireIsBlind(w.replica.view, Whole(w.journal), q.move.command, q.move.env);
    } else {
      SoundReads(w, w.replica, q.before);
    }
  }

  ghost predicate Stays(w: World, v: World) { v.journal == w.journal && v.replies == w.replies }

  /** The records of the command and the reply are appended together, once for the key, and
      the journal then says what one step of the model says. */
  ghost predicate Commits(w: World, v: World, q: Request) {
    var a := SysOf(w);
    var o := Handle(a.state, q.move.command, q.move.env);
    && q.name !in w.replies && o.Written?
    && v.journal == w.journal + o.records && v.replies == w.replies[q.name := Reply(q.content, o.records)]
    && Whole(v.journal) == Step(a, q.move).state && v.journal == Step(a, q.move).journal
  }

  lemma CommitReads(a: Sys, o: Outcome, at: Time)
    requires o.Written? && Agrees(a.state, o) && Replayed(EMPTY, a.journal) == Some(a.state)
            && Storable(EMPTY, a.journal)
    ensures Commit(a, o, at).journal == a.journal + o.records && Whole(a.journal + o.records) == Commit(a, o, at).state
  {
    Joined(EMPTY, a.journal, a.state, o.records, Replayed(a.state, o.records).value);
  }

  lemma StepReads(a: Sys, m: Move)
    requires Consistent(a) && Allowed(a, m) && Handle(a.state, m.command, m.env).Written?
    ensures Step(a, m).journal == a.journal + Handle(a.state, m.command, m.env).records
    ensures Whole(Step(a, m).journal) == Step(a, m).state
  {
    AllowedAgrees(a, m);
    CommitReads(a, Handle(a.state, m.command, m.env), m.env.stamp);
  }

  lemma TransactedCommits(w: World, u: World, q: Request)
    requires Sound(w) && Allowed(SysOf(w), q.move) && Stays(w, u)
    requires Handle(u.replica.view, q.move.command, q.move.env) == Handle(Whole(w.journal), q.move.command, q.move.env)
    requires Transacted(u, q).1.Fresh?
    ensures var f := Transacted(u, q); f.0.replica == u.replica && f.0.clock == u.clock && Commits(w, f.0, q)
  {
    StepReads(SysOf(w), q.move);
  }

  lemma TransactedStays(u: World, q: Request)
    requires !Transacted(u, q).1.Fresh?
    ensures var f := Transacted(u, q);
            && f.0 == u
            && match f.1
               case Replay(records) => q.name in u.replies && u.replies[q.name] == Reply(q.content, records)
               case Conflict => q.name in u.replies && u.replies[q.name].request != q.content
               case Failed(_) => true
               case _ => false
  {}

  lemma StaysSound(w: World, v: World)
    requires Sound(w) && Stays(w, v) && w.clock <= v.clock && Synced(v.journal, v.replica)
    ensures Sound(v)
  {
    BeforeLater(Whole(w.journal), w.clock, v.clock);
  }

  lemma CommitsSound(w: World, v: World, q: Request)
    requires Sound(w) && Allowed(SysOf(w), q.move) && Commits(w, v, q) && v.clock == q.move.env.stamp
    requires Synced(v.journal, v.replica)
    ensures Sound(v) && SysOf(v) == Step(SysOf(w), q.move)
  {
    StepConsistent(SysOf(w), q.move);
    StepClock(SysOf(w), q.move);
  }

  lemma StepClock(a: Sys, m: Move)
    ensures Step(a, m).clock == m.env.stamp
  {}

  lemma AllowedClock(a: Sys, m: Move)
    requires Allowed(a, m)
    ensures a.clock <= m.env.stamp
  {}

  /** Nothing is appended, and the maps are those that the command saw: those that the core
      already held, if it had read the journal to its end. */
  ghost predicate OnlyRead(w: World, q: Request, v: World)
    requires Placed(w)
  {
    && Stays(w, v) && v.replica == Opened(w, q).0
    && (w.replica.position == |w.journal| ==> v.replica == w.replica)
  }

  lemma OpenedAtEnd(w: World, q: Request)
    requires Placed(w) && w.replica.position == |w.journal|
    ensures Opened(w, q).0 == w.replica
  {}

  lemma OnlyReadOpened(w: World, q: Request, v: World)
    requires Placed(w) && Stays(w, v) && v.replica == Opened(w, q).0
    ensures OnlyRead(w, q, v)
  {
    if w.replica.position == |w.journal| { OpenedAtEnd(w, q); }
  }

  /** What a request leaves behind, whatever it is answered. A fresh answer has committed; a
      repeated, refused or conflicting one has not; and a core that could not read to the end
      has either committed or not, but has never met a record that replay refuses. */
  ghost predicate ExecutedAs(w: World, q: Request, v: World, answer: Answer)
    requires Placed(w)
  {
    && Sound(v) && v.clock == q.move.env.stamp && (Stays(w, v) || Commits(w, v, q))
    && match answer
       case Fresh(records) =>
         Commits(w, v, q) && v.replies[q.name] == Reply(q.content, records) && v.replica.view == Whole(v.journal)
       case Replay(records) =>
         && Stays(w, v) && q.name in w.replies && w.replies[q.name] == Reply(q.content, records)
         && v.replica.view == Whole(v.journal)
       case Failed(_) => OnlyRead(w, q, v)
       case Conflict => OnlyRead(w, q, v) && q.name in w.replies && w.replies[q.name].request != q.content
       case NotSynced(result) => !result.Refused?
  }

  /** A transaction that has succeeded, before the second synchronisation. */
  ghost predicate Settled(w: World, q: Request, v: World, answer: Answer) {
    && Sound(v) && v.clock == q.move.env.stamp
    && (|| (answer.Fresh? && Commits(w, v, q) && v.replies[q.name] == Reply(q.content, answer.records))
        || (answer.Replay? && Stays(w, v) && q.name in w.replies
            && w.replies[q.name] == Reply(q.content, answer.records)))
  }

  lemma Closes(w: World, q: Request, v: World, answer: Answer)
    requires Placed(w) && Settled(w, q, v, answer)
    ensures var f := Synchronised(v.journal, v.replica, q.after);
            ExecutedAs(w, q, v.(replica := f.0), if f.1.UpToDate? then answer else NotSynced(f.1))
  {
    SoundReads(v, v.replica, q.after);
    var u := v.(replica := Synchronised(v.journal, v.replica, q.after).0);
    StaysSound(v, u);
  }

  lemma OpenedStays(w: World, q: Request)
    requires Sound(w) && Allowed(SysOf(w), q.move)
    ensures var u := w.(replica := Opened(w, q).0, clock := q.move.env.stamp); Stays(w, u) && Sound(u)
  {
    OpenedReads(w, q);
    AllowedClock(SysOf(w), q.move);
    StaysSound(w, w.(replica := Opened(w, q).0, clock := q.move.env.stamp));
  }

  lemma TransactedFresh(w: World, u: World, q: Request)
    requires Sound(w) && Allowed(SysOf(w), q.move) && Stays(w, u) && u.clock == q.move.env.stamp
            && Synced(u.journal, u.replica)
    requires Handle(u.replica.view, q.move.command, q.move.env) == Handle(Whole(w.journal), q.move.command, q.move.env)
    requires Transacted(u, q).1.Fresh?
    ensures Settled(w, q, Transacted(u, q).0, Transacted(u, q).1)
  {
    TransactedCommits(w, u, q);
    var v := Transacted(u, q).0;
    SyncedStays(u.journal, v.journal[|u.journal|..], u.replica);
    assert u.journal + v.journal[|u.journal|..] == v.journal;
    CommitsSound(w, v, q);
  }

  lemma TransactedOther(w: World, u: World, q: Request)
    requires Sound(w) && Allowed(SysOf(w), q.move) && Stays(w, u) && u.clock == q.move.env.stamp && Sound(u)
    requires u.replica == Opened(w, q).0
    requires Handle(u.replica.view, q.move.command, q.move.env) == Handle(Whole(w.journal), q.move.command, q.move.env)
    requires !Transacted(u, q).1.Fresh?
    ensures var f := Transacted(u, q);
            if f.1.Replay? then Settled(w, q, f.0, f.1)
                else (f.1.Failed? || f.1.Conflict?) && ExecutedAs(w, q, f.0, f.1)
  {
    TransactedStays(u, q);
    OnlyReadOpened(w, q, u);
  }

  /** A transaction has settled, or has been refused for good. */
  ghost predicate Decided(w: World, q: Request, v: World, answer: Answer)
    requires Placed(w)
  {
    if answer.Fresh? || answer.Replay? then Settled(w, q, v, answer)
    else (answer.Failed? || answer.Conflict?) && ExecutedAs(w, q, v, answer)
  }

  lemma TransactedDecides(w: World, u: World, q: Request)
    requires Sound(w) && Allowed(SysOf(w), q.move) && Stays(w, u) && u.clock == q.move.env.stamp && Sound(u)
    requires u.replica == Opened(w, q).0
    requires Handle(u.replica.view, q.move.command, q.move.env) == Handle(Whole(w.journal), q.move.command, q.move.env)
    ensures Decided(w, q, Transacted(u, q).0, Transacted(u, q).1)
  {
    if Transacted(u, q).1.Fresh? { TransactedFresh(w, u, q); } else { TransactedOther(w, u, q); }
  }

  lemma ExecutedDecides(w: World, u: World, q: Request)
    requires Placed(w) && Opened(w, q).1.UpToDate? && u == w.(replica := Opened(w, q).0, clock := q.move.env.stamp)
    requires Decided(w, q, Transacted(u, q).0, Transacted(u, q).1)
    ensures ExecutedAs(w, q, Executed(w, q).0, Executed(w, q).1)
  {
    var done := Transacted(u, q);
    if done.1.Fresh? || done.1.Replay? { Closes(w, q, done.0, done.1); }
  }

  lemma ExecutedNotOpened(w: World, q: Request)
    requires Sound(w) && Allowed(SysOf(w), q.move) && !Opened(w, q).1.UpToDate?
    ensures ExecutedAs(w, q, Executed(w, q).0, Executed(w, q).1)
  {
    OpenedReads(w, q);
    OpenedStays(w, q);
  }

  lemma ExecutedIs(w: World, q: Request)
    requires Sound(w) && Allowed(SysOf(w), q.move)
    ensures ExecutedAs(w, q, Executed(w, q).0, Executed(w, q).1)
  {
    if Opened(w, q).1.UpToDate? {
      OpenedReads(w, q);
      OpenedStays(w, q);
      var u := w.(replica := Opened(w, q).0, clock := q.move.env.stamp);
      TransactedDecides(w, u, q);
      ExecutedDecides(w, u, q);
    } else {
      ExecutedNotOpened(w, q);
    }
  }

  // -------------------------------------------------------------------------- every run

  ghost predicate Unrefused(r: Reaction) {
    match r case Answered(answer) => answer != NotSynced(Refused) case Read(result) => !result.Refused?
  }

  lemma ActedSound(w: World, event: Event)
    requires Sound(w) && Permitted(w, event)
    ensures Sound(Acted(w, event).0) && Unrefused(Acted(w, event).1)
  {
    match event
    case Execute(q) => ExecutedIs(w, q);
    case Sync(deliveries) =>
      SoundReads(w, w.replica, deliveries);
      StaysSound(w, w.(replica := Synchronised(w.journal, w.replica, deliveries).0));
    case Restart(deliveries) =>
      FreshSynced(w.journal);
      SoundReads(w, FRESH, deliveries);
      StaysSound(w, w.(replica := Synchronised(w.journal, FRESH, deliveries).0));
  }

  lemma BeginningSound()
    ensures Sound(BEGINNING)
  {
    StartConsistent();
    FreshSynced([]);
  }

  lemma {:induction false} LaterSound(w: World, events: seq<Event>)
    requires Sound(w) && AllPermitted(w, events)
    ensures Sound(Later(w, events))
    decreases |events|
  {
    if events != [] {
      var front := events[..|events| - 1];
      LaterSound(w, front);
      ActedSound(Later(w, front), events[|events| - 1]);
    }
  }

  lemma {:induction false} PrefixPermitted(w: World, events: seq<Event>, i: nat)
    requires Placed(w) && AllPermitted(w, events) && i < |events|
    ensures AllPermitted(w, events[..i]) && Permitted(Later(w, events[..i]), events[i])
    decreases |events|
  {
    var front := events[..|events| - 1];
    if i < |events| - 1 {
      PrefixPermitted(w, front, i);
      assert front[..i] == events[..i] && front[i] == events[i];
    }
  }

  /** No core ever meets a record that it refuses, in no synchronisation, no restart and no
      request of any interleaving. */
  lemma NeverRefused(w: World, events: seq<Event>, i: nat)
    requires Sound(w) && AllPermitted(w, events) && i < |events|
    ensures Unrefused(Acted(Later(w, events[..i]), events[i]).1)
  {
    PrefixPermitted(w, events, i);
    LaterSound(w, events[..i]);
    ActedSound(Later(w, events[..i]), events[i]);
  }

  /** After any interleaving, the core that has been running and one that is restarted both
      come up to date, given enough deliveries, and hold the same maps: what the whole journal
      says. */
  lemma RestartEquivalence(events: seq<Event>, live: nat, restarted: nat)
    requires AllPermitted(BEGINNING, events)
    requires |Later(BEGINNING, events).journal| < live * BATCH && |Later(BEGINNING, events).journal| < restarted * BATCH
    ensures var w := Later(BEGINNING, events);
            && Replayed(EMPTY, w.journal).Some?
            && var end := (Replica(|w.journal|, Replayed(EMPTY, w.journal).value), UpToDate);
            Synchronised(w.journal, w.replica, live) == end && Synchronised(w.journal, FRESH, restarted) == end
  {
    BeginningSound();
    LaterSound(BEGINNING, events);
    var w := Later(BEGINNING, events);
    FreshSynced(w.journal);
    SyncCompletes(w.journal, Whole(w.journal), w.replica, live);
    SyncCompletes(w.journal, Whole(w.journal), FRESH, restarted);
  }

  // ------------------------------------------------------------- runs of the model, and keys

  /** An event commits one allowed step of the model, or leaves journal and replies alone. */
  lemma ActedEither(w: World, event: Event)
    requires Sound(w) && Permitted(w, event)
    ensures var v := Acted(w, event).0;
            && w.clock <= v.clock && (Stays(w, v) || (event.Execute? && Commits(w, v, event.request)))
  {
    if event.Execute? {
      ExecutedIs(w, event.request);
      AllowedClock(SysOf(w), event.request.move);
    }
  }

  lemma StepAlike(a: Sys, b: Sys, m: Move)
    requires a.journal == b.journal && a.state == b.state
    ensures Step(a, m) == Step(b, m)
  {}

  lemma AllowedEarlier(a: Sys, b: Sys, m: Move)
    requires Allowed(b, m) && a.state == b.state && a.clock <= b.clock
    ensures Allowed(a, m)
  {}

  /** The journal of a world is that of a run of the model. */
  ghost predicate Follows(w: World, a: Sys) {
    a.journal == w.journal && a.state == Whole(w.journal) && a.clock <= w.clock
  }

  lemma FollowsStep(w: World, v: World, q: Request, a: Sys)
    requires Follows(w, a) && Allowed(SysOf(w), q.move) && Commits(w, v, q) && v.clock == q.move.env.stamp
    ensures Allowed(a, q.move) && Follows(v, Step(a, q.move))
  {
    AllowedEarlier(a, SysOf(w), q.move);
    StepAlike(a, SysOf(w), q.move);
    StepClock(a, q.move);
  }

  /** Whatever is interleaved, the commands that were committed form an allowed run of the
      model, and its projection is what the journal says. So everything proved of runs holds
      of the maps of every core that is up to date. */
  lemma {:induction false} InterleavingIsRun(events: seq<Event>) returns (moves: seq<Move>)
    requires AllPermitted(BEGINNING, events)
    ensures AllAllowed(START, moves) && Follows(Later(BEGINNING, events), After(START, moves))
    decreases |events|
  {
    if events == [] {
      moves := [];
      AfterNothing(START);
    } else {
      var front, last := events[..|events| - 1], events[|events| - 1];
      moves := InterleavingIsRun(front);
      BeginningSound();
      LaterSound(BEGINNING, front);
      moves := OneMoreEvent(Later(BEGINNING, front), last, moves);
    }
  }

  lemma OneMoreEvent(w: World, event: Event, moves: seq<Move>) returns (more: seq<Move>)
    requires Sound(w) && Permitted(w, event) && AllAllowed(START, moves) && Follows(w, After(START, moves))
    ensures AllAllowed(START, more) && Follows(Acted(w, event).0, After(START, more))
  {
    ActedEither(w, event);
    more := moves;
    if !Stays(w, Acted(w, event).0) {
      var q := event.request;
      ExecutedIs(w, q);
      FollowsStep(w, Acted(w, event).0, q, After(START, moves));
      AfterOneMore(START, moves, q.move);
      more := moves + [q.move];
    }
  }

  /** The records of some replies, one reply after the other. */
  function Flattened(replies: map<Name, Reply>, order: seq<Name>): seq<Control>
    requires forall k | 0 <= k < |order| :: order[k] in replies
  {
    if order == [] then [] else Flattened(replies, order[..|order| - 1]) + replies[order[|order| - 1]].records
  }

  ghost predicate OrderOf(replies: map<Name, Reply>, order: seq<Name>) {
    && (forall j, k | 0 <= j < k < |order| :: order[j] != order[k])
    && (forall name :: name in replies <==> name in order)
  }

  ghost predicate Accounted(journal: seq<Control>, replies: map<Name, Reply>, order: seq<Name>) {
    OrderOf(replies, order) && (forall k | 0 <= k < |order| :: order[k] in replies)
        && journal == Flattened(replies, order)
  }

  lemma {:induction false} FlattenedElsewhere(replies: map<Name, Reply>, order: seq<Name>, name: Name, reply: Reply)
    requires (forall k | 0 <= k < |order| :: order[k] in replies) && name !in order
    ensures Flattened(replies[name := reply], order) == Flattened(replies, order)
    decreases |order|
  {
    if order != [] { FlattenedElsewhere(replies, order[..|order| - 1], name, reply); }
  }

  lemma AccountedMore(journal: seq<Control>, replies: map<Name, Reply>, order: seq<Name>, name: Name, reply: Reply)
    requires Accounted(journal, replies, order) && name !in replies
    ensures Accounted(journal + reply.records, replies[name := reply], order + [name])
  {
    FlattenedElsewhere(replies, order, name, reply);
    assert (order + [name])[..|order + [name]| - 1] == order;
  }

  /** The journal is the concatenation of the records of the replies, each key once: no
      request appends its records twice, and nothing else is in the journal. */
  lemma {:induction false} EveryKeyOnce(events: seq<Event>) returns (order: seq<Name>)
    requires AllPermitted(BEGINNING, events)
    ensures var w := Later(BEGINNING, events); Accounted(w.journal, w.replies, order)
    decreases |events|
  {
    if events == [] {
      order := [];
    } else {
      var front, last := events[..|events| - 1], events[|events| - 1];
      order := EveryKeyOnce(front);
      BeginningSound();
      LaterSound(BEGINNING, front);
      order := OneMoreKey(Later(BEGINNING, front), last, order);
    }
  }

  lemma OneMoreKey(w: World, event: Event, order: seq<Name>) returns (more: seq<Name>)
    requires Sound(w) && Permitted(w, event) && Accounted(w.journal, w.replies, order)
    ensures var v := Acted(w, event).0; Accounted(v.journal, v.replies, more)
  {
    ActedEither(w, event);
    more := order;
    if !Stays(w, Acted(w, event).0) {
      var q := event.request;
      var records := Handle(Whole(w.journal), q.move.command, q.move.env).records;
      AccountedMore(w.journal, w.replies, order, q.name, Reply(q.content, records));
      more := order + [q.name];
    }
  }
}

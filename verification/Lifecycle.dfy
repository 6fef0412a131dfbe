/** Runs of the core: commands committed one after the other against a journal. */
module Lifecycle {
  import opened States
  import opened Records
  import opened Replay
  import opened Commands
  import opened Invariant
  import opened Landing
  import opened Chains
  import opened Stamps
  import opened LeaseCommands
  import opened Agreement

  /** The journal, the projection the core holds, and the last clock reading. */
  datatype Sys = Sys(journal: seq<Control>, state: State, clock: Time)

  datatype Move = Move(command: Command, env: Env)

  const START := Sys([], EMPTY, 0)

  /** The store appends the records or refuses them; the core then replays what was appended. */
  function Commit(a: Sys, o: Outcome, at: Time): Sys {
    if o.Written? && Storable(a.state, o.records) then
      Sys(a.journal + o.records, match Replayed(a.state, o.records) case Some(t) => t case None => a.state, at)
    else a.(clock := at)
  }

  function Step(a: Sys, m: Move): Sys { Commit(a, Handle(a.state, m.command, m.env), m.env.stamp) }

  /** The clock does not run backwards, identities are new, and a release is in time. */
  ghost predicate Allowed(a: Sys, m: Move) {
    && m.env.stamp != 0 && a.clock <= m.env.guard <= m.env.stamp
    && FreshOwners(a.state, m.env.ids) && FreshWork(a.state, m.env.ids)
    && InTime(a.state, m.command, m.env)
  }

  function After(a: Sys, moves: seq<Move>): Sys {
    if moves == [] then a else Step(After(a, moves[..|moves| - 1]), moves[|moves| - 1])
  }

  ghost predicate AllAllowed(a: Sys, moves: seq<Move>) {
    moves == [] ||
    (AllAllowed(a, moves[..|moves| - 1]) && Allowed(After(a, moves[..|moves| - 1]), moves[|moves| - 1]))
  }

  lemma AfterNothing(a: Sys)
    ensures AllAllowed(a, []) && After(a, []) == a
  {}

  lemma AfterOneMore(a: Sys, moves: seq<Move>, m: Move)
    requires AllAllowed(a, moves) && Allowed(After(a, moves), m)
    ensures AllAllowed(a, moves + [m]) && After(a, moves + [m]) == Step(After(a, moves), m)
  {
    assert (moves + [m])[..|moves + [m]| - 1] == moves;
  }

  lemma AfterOne(a: Sys, m: Move)
    requires Allowed(a, m)
    ensures AllAllowed(a, [m]) && After(a, [m]) == Step(a, m)
  {
    AfterNothing(a);
    AfterOneMore(a, [], m);
    assert [] + [m] == [m];
  }

  /** The projection is the replay of the whole journal, and satisfies the invariant. */
  ghost predicate Consistent(a: Sys) {
    && Inv(a.state) && Before(a.state, a.clock)
    && Storable(EMPTY, a.journal) && Replayed(EMPTY, a.journal) == Some(a.state)
  }

  lemma StartConsistent()
    ensures Consistent(START)
  {}

  lemma BeforeLater(s: State, t: Time, u: Time)
    requires Before(s, t) && t <= u
    ensures Before(s, u)
  {}

  lemma CommitRecords(a: Sys, records: seq<Control>, at: Time)
    requires Consistent(a) && Agreed(a.state, records) && Stamped(records, at) && a.clock <= at
    ensures Replayed(a.state, records).Some?
    ensures Consistent(Sys(a.journal + records, Replayed(a.state, records).value, at))
  {
    var t := Replayed(a.state, records).value;
    Joined(EMPTY, a.journal, a.state, records, t);
    BeforeLater(a.state, a.clock, at);
    StampedBefore(a.state, records, at);
  }

  lemma CommitConsistent(a: Sys, o: Outcome, at: Time)
    requires Consistent(a) && Agrees(a.state, o) && StampedOutcome(o, at) && a.clock <= at
    ensures Consistent(Commit(a, o, at)) && Evolves(a.state, Commit(a, o, at).state)
  {
    if o.Written? {
      CommitRecords(a, o.records, at);
    } else {
      BeforeLater(a.state, a.clock, at);
      EvolvesReflexive(a.state);
    }
  }

  lemma AllowedReady(a: Sys, m: Move)
    requires Inv(a.state) && Before(a.state, a.clock) && Allowed(a, m)
    ensures Ready(a.state, m.env)
  {}

  lemma AllowedAgrees(a: Sys, m: Move)
    requires Inv(a.state) && Before(a.state, a.clock) && Allowed(a, m)
    ensures Agrees(a.state, Handle(a.state, m.command, m.env))
  {
    AllowedReady(a, m);
    CommandsAgree(a.state, m.command, m.env);
  }

  lemma StepConsistent(a: Sys, m: Move)
    requires Consistent(a) && Allowed(a, m)
    ensures Consistent(Step(a, m)) && Evolves(a.state, Step(a, m).state)
  {
    AllowedAgrees(a, m);
    HandleStamped(a.state, m.command, m.env);
    CommitConsistent(a, Handle(a.state, m.command, m.env), m.env.stamp);
  }

  /** Every run keeps the projection equal to the replay of the journal, keeps the
      invariant, and only ever adds to what is recorded. */
  lemma {:induction false} AfterConsistent(a: Sys, moves: seq<Move>)
    requires Consistent(a) && AllAllowed(a, moves)
    ensures Consistent(After(a, moves)) && Evolves(a.state, After(a, moves).state)
  {
    if moves == [] {
      EvolvesReflexive(a.state);
    } else {
      var front := moves[..|moves| - 1];
      AfterConsistent(a, front);
      StepConsistent(After(a, front), moves[|moves| - 1]);
      EvolvesTransitive(a.state, After(a, front).state, After(a, moves).state);
    }
  }
}

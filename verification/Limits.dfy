/** Releases that are committed too late: the journal then has a record that replay refuses,
    and the exact condition under which it has not. */
module Limits {
  import opened States
  import opened Records
  import opened Replay
  import opened Commands
  import opened Invariant
  import opened Landing
  import opened Chains
  import opened Owners
  import opened LeaseCommands
  import opened TerminationCommands
  import opened RecoveryCommands
  import opened Agreement

  // --------------------------------------------------- releases that reach the expiry

  lemma BeginReleaseWrites(s: State, leaseId: Token, expected: nat, reason: Token, key: Token, digest: Token, env: Env)
    requires BeginRelease(s, leaseId, expected, reason, key, digest, env).Written? && env.guard <= env.stamp
    ensures leaseId in s.leases && s.leases[leaseId].identity.sessionId in s.sessions
    ensures var l := s.leases[leaseId];
            BeginRelease(s, leaseId, expected, reason, key, digest, env).records ==
            [Entry(LeaseBody(Begun(l, ReleaseKind, reason, key, digest, env.stamp))),
             Entry(SessionBody(SessionMoved(SessionOf(s, l), SessionReleasing, env.stamp)))]
  {}

  /** The lease record of a release stamped at or after the expiry is refused by replay. */
  lemma LateRecordRefused(s: State, l: Lease, reason: Token, key: Token, digest: Token, at: Time)
    requires l.expiresAt <= at
    ensures !Accepts(s, Entry(LeaseBody(Begun(l, ReleaseKind, reason, key, digest, at))))
  {}

  lemma FirstRefused(s: State, c: Control, d: Control)
    requires !Accepts(s, c)
    ensures Replayed(s, [c, d]).None?
  {
    assert [c, d][..1] == [c] && [c][..0] == [];
    assert Replayed(s, [c]).None?;
  }

  lemma StillStorable(s: State, l: Lease, r: Lease, x: Session, y: Session)
    requires l.id != 0 && l.id in s.leases && s.leases[l.id] == l && r.id == l.id && r.revision == l.revision + 1
    requires x.id != 0 && x.id in s.sessions && s.sessions[x.id] == x && y.id == x.id && y.revision == x.revision + 1
    ensures Storable(s, [Entry(LeaseBody(r)), Entry(SessionBody(y))])
  {}

  lemma ReleaseStorable(s: State, leaseId: Token, expected: nat, reason: Token, key: Token, digest: Token, env: Env)
    requires SessionsInv(s) && LeasesInv(s) && AgentsInv(s) && env.guard <= env.stamp
    requires BeginRelease(s, leaseId, expected, reason, key, digest, env).Written?
    ensures Storable(s, BeginRelease(s, leaseId, expected, reason, key, digest, env).records)
  {
    BeginReleaseWrites(s, leaseId, expected, reason, key, digest, env);
    TripleOf(s, leaseId);
    var l := s.leases[leaseId];
    var x := SessionOf(s, l);
    StillStorable(s, l, Begun(l, ReleaseKind, reason, key, digest, env.stamp), x,
        SessionMoved(x, SessionReleasing, env.stamp));
  }

  /** The store takes a release either way; replay takes it if and only if the second
      reading of the clock, written into the record, is still before the expiry. */
  lemma ReleaseAcceptedIff(s: State, leaseId: Token, expected: nat, reason: Token, key: Token, digest: Token, env: Env)
    requires Ready(s, env) && BeginRelease(s, leaseId, expected, reason, key, digest, env).Written?
    ensures leaseId in s.leases
    ensures var records := BeginRelease(s, leaseId, expected, reason, key, digest, env).records;
            && Storable(s, records)
            && (Replayed(s, records).Some? <==> env.stamp < s.leases[leaseId].expiresAt)
  {
    BeginReleaseWrites(s, leaseId, expected, reason, key, digest, env);
    ReleaseStorable(s, leaseId, expected, reason, key, digest, env);
    if env.stamp < s.leases[leaseId].expiresAt {
      BeginReleaseCommitted(s, leaseId, expected, reason, key, digest, env);
    } else {
      ReleaseRefused(s, leaseId, expected, reason, key, digest, env);
    }
  }

  lemma ReleaseRefused(s: State, leaseId: Token, expected: nat, reason: Token, key: Token, digest: Token, env: Env)
    requires BeginRelease(s, leaseId, expected, reason, key, digest, env).Written? && env.guard <= env.stamp
    requires leaseId in s.leases && s.leases[leaseId].expiresAt <= env.stamp
    ensures Replayed(s, BeginRelease(s, leaseId, expected, reason, key, digest, env).records).None?
  {
    BeginReleaseWrites(s, leaseId, expected, reason, key, digest, env);
    var l := s.leases[leaseId];
    LateRecordRefused(s, l, reason, key, digest, env.stamp);
    FirstRefused(s, Entry(LeaseBody(Begun(l, ReleaseKind, reason, key, digest, env.stamp))),
                 Entry(SessionBody(SessionMoved(SessionOf(s, l), SessionReleasing, env.stamp))));
  }

  /** A journal with a refused record stays unreadable, whatever is appended later. */
  lemma {:induction false} RefusedForever(s: State, journal: seq<Control>, more: seq<Control>)
    requires Replayed(s, journal).None?
    ensures Replayed(s, journal + more).None?
    decreases |more|
  {
    if more == [] {
      assert journal + more == journal;
    } else {
      RefusedForever(s, journal, more[..|more| - 1]);
      assert (journal + more)[..|journal + more| - 1] == journal + more[..|more| - 1];
    }
  }

  // A lease acquired at time 1 for one unit of time, released with the gate at 1 and the record at 2.

  const IDS := Ids(1, 1, 1, 1, 1, 1, 1, 1, 1)
  const PROVENANCE := Provenance(1, 1, 1)

  lemma LateReleaseExists() returns (s: State)
    ensures Replayed(EMPTY, Acquire(EMPTY, 1, 1, PROVENANCE, 1, Env(1, 1, IDS)).records) == Some(s)
    ensures var o := BeginRelease(s, 1, 1, 1, 1, 1, Env(1, 2, IDS)); o.Written? && Replayed(s, o.records).None?
  {
    var env := Env(1, 1, IDS);
    AcquireWrites(EMPTY, 1, 1, PROVENANCE, 1, env);
    AcquireFollows(EMPTY, 1, 1, PROVENANCE, 1, env);
    s := Owned(EMPTY, NewSession(1, 1, PROVENANCE, SessionLeased, 3, env), NewLease(PROVENANCE, 1, env),
        NewAgent(PROVENANCE, env));
    assert BeginRelease(s, 1, 1, 1, 1, 1, Env(1, 2, IDS)).Written?;
    ReleaseRefused(s, 1, 1, 1, 1, 1, Env(1, 2, IDS));
  }
}

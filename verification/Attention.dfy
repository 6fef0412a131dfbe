/** The list of leases that need attention: overdue ones whose expiry must begin, and
    every unfinished termination. */
module Attention {
  import opened States
  import opened Records
  import opened Replay
  import opened Commands
  import opened Invariant
  import opened Owners

  datatype Item = Item(
    leaseId: Token, sessionId: Token, revision: nat, expiresAt: Time,
    kind: TerminationKind, state: TerminationState, needsBegin: bool)

  predicate Overdue(l: Lease, now: Time) { l.termination.Empty() && l.state.LeaseActive? && l.expiresAt <= now }

  predicate NeedsAttention(l: Lease, now: Time) { l.termination.InProgress() || Overdue(l, now) }

  function ItemOf(l: Lease): Item {
    if l.termination.InProgress() then
      Item(l.id, l.identity.sessionId, l.revision, l.expiresAt, l.termination.kind, l.termination.state, false)
    else Item(l.id, l.identity.sessionId, l.revision, l.expiresAt, ExpiryKind, NotTerminating, true)
  }

  /** By expiry, then by identity. */
  predicate Earlier(a: Item, b: Item) {
    a.expiresAt < b.expiresAt || (a.expiresAt == b.expiresAt && a.leaseId < b.leaseId)
  }

  predicate InOrder(items: seq<Item>) { forall i, j | 0 <= i < j < |items| :: Earlier(items[i], items[j]) }

  /** An item put in its place. */
  function Placed(item: Item, items: seq<Item>): (r: seq<Item>)
    requires InOrder(items) && forall k | 0 <= k < |items| :: items[k].leaseId != item.leaseId
    ensures InOrder(r)
    ensures forall x :: x in r <==> x == item || x in items
    decreases |items|
  {
    if items == [] || Earlier(item, items[0]) then [item] + items
    else
      var rest := Placed(item, items[1..]);
      assert forall k | 0 <= k < |rest| :: rest[k] in rest && Earlier(items[0], rest[k]);
      [items[0]] + rest
  }

  /** Exactly the leases that need attention, each once, in order, whatever order the map
      is read in. */
  method ListLeaseTerminationWork(leases: map<Token, Lease>, now: Time) returns (work: seq<Item>)
    requires forall id | id in leases :: leases[id].id == id
    ensures InOrder(work)
    ensures forall x :: x in work <==> exists id ::
            id in leases && NeedsAttention(leases[id], now) && x == ItemOf(leases[id])
  {
    work := [];
    var left := leases.Keys;
    while left != {}
      invariant left <= leases.Keys && InOrder(work)
      invariant forall x :: x in work <==> exists id ::
          id in leases && id !in left && NeedsAttention(leases[id], now) && x == ItemOf(leases[id])
      decreases |left|
    {
      var id :| id in left;
      forall k | 0 <= k < |work| ensures work[k].leaseId != id { assert work[k] in work; }
      if NeedsAttention(leases[id], now) { work := Placed(ItemOf(leases[id]), work); }
      left := left - {id};
    }
  }

  /** The order leaves no choice: two such lists with the same members are equal. */
  lemma {:induction false} OrderUnique(xs: seq<Item>, ys: seq<Item>)
    requires InOrder(xs) && InOrder(ys) && forall x :: x in xs <==> x in ys
    ensures xs == ys
    decreases |xs|
  {
    assert (|xs| > 0 ==> xs[0] in xs) && (|ys| > 0 ==> ys[0] in ys);
    if |xs| > 0 {
      assert xs[0] == ys[0];
      forall x ensures x in xs[1..] <==> x in ys[1..] {
        assert x in xs[1..] <==> x in xs && x != xs[0];
        assert x in ys[1..] <==> x in ys && x != ys[0];
      }
      OrderUnique(xs[1..], ys[1..]);
    }
  }

  /** A lease accepts work, or needs attention, or is finally terminated, and never two
      of these. */
  predicate OneClass(l: Lease, now: Time) {
    && (LeaseAdmits(l, now) || NeedsAttention(l, now) || Closed(l))
    && !(LeaseAdmits(l, now) && NeedsAttention(l, now)) && !(LeaseAdmits(l, now) && Closed(l))
    && !(NeedsAttention(l, now) && Closed(l))
  }

  lemma ThreeClasses(s: State, leaseId: Token, now: Time)
    requires LeasesInv(s) && leaseId in s.leases
    ensures OneClass(s.leases[leaseId], now)
  {}

  lemma OverdueBegins(s: State, x: Session, l: Lease, key: Token, digest: Token, env: Env)
    requires l.id in s.leases && s.leases[l.id] == l && l.revision >= 1 && l.identity.sessionId in s.sessions
            && s.sessions[l.identity.sessionId] == x
    requires x.state.SessionLeased? && Overdue(l, env.guard) && key != 0 && digest != 0
    ensures BeginExpiry(s, l.id, l.revision, key, digest, env).Written?
  {}

  /** An overdue lease can begin to expire at once. */
  lemma OverdueCanBegin(s: State, leaseId: Token, key: Token, digest: Token, env: Env)
    requires SessionsInv(s) && LeasesInv(s) && AgentsInv(s) && leaseId in s.leases
            && Overdue(s.leases[leaseId], env.guard)
    requires key != 0 && digest != 0
    ensures BeginExpiry(s, leaseId, s.leases[leaseId].revision, key, digest, env).Written?
  {
    TripleOf(s, leaseId);
    var l := s.leases[leaseId];
    OverdueBegins(s, s.sessions[l.identity.sessionId], l, key, digest, env);
  }
}

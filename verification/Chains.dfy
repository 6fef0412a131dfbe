/** Transactions: records appended one after the other. */
module Chains {
  import opened States
  import opened Records
  import opened Replay
  import opened Commands
  import opened Invariant
  import opened Landing

  /** The store takes the records in order and replaying them leads to a projection. */
  ghost predicate Follows(s: State, records: seq<Control>, t: State) {
    Storable(s, records) && Replayed(s, records) == Some(t)
  }

  /** What a transaction that a command commits must satisfy: the store takes it, replay
      takes it, the invariant holds again, and nothing recorded is lost. */
  ghost predicate Agreed(s: State, records: seq<Control>) {
    && Storable(s, records) && Replayed(s, records).Some?
    && Inv(Replayed(s, records).value) && Evolves(s, Replayed(s, records).value)
  }

  ghost predicate Agrees(s: State, o: Outcome) { o.Written? ==> Agreed(s, o.records) }

  lemma HeldHere(s: State, put: Aggregate, body: Aggregate)
    requires put.SameAggregate(body)
    ensures Held(Put(s, put), body) == put.Revision()
  {}

  lemma HeldElsewhere(s: State, put: Aggregate, body: Aggregate)
    requires !put.SameAggregate(body)
    ensures Held(Put(s, put), body) == Held(s, body)
  {}

  /** The revision that the store compares with is the one in the replayed projection. */
  lemma {:induction false} LatestIsHeld(s: State, records: seq<Control>, body: Aggregate)
    requires Replayed(s, records).Some?
    ensures Latest(s, records, body) == Held(Replayed(s, records).value, body)
  {
    if records != [] {
      var front, last := records[..|records| - 1], records[|records| - 1];
      LatestIsHeld(s, front, body);
      var t := Replayed(s, front).value;
      if last.body.SameAggregate(body) { HeldHere(t, last.body, body); } else { HeldElsewhere(t, last.body, body); }
    }
  }

  lemma Extended(s: State, records: seq<Control>, t: State, c: Control, u: State)
    requires Follows(s, records, t) && Appends(t, c, u)
    ensures Follows(s, records + [c], u)
  {
    assert (records + [c])[..|records|] == records;
    LatestIsHeld(s, records, c.body);
  }

  lemma Shortened(s: State, records: seq<Control>, u: State) returns (t: State)
    requires Follows(s, records, u) && records != []
    ensures Follows(s, records[..|records| - 1], t) && Appends(t, records[|records| - 1], u)
  {
    t := Replayed(s, records[..|records| - 1]).value;
    LatestIsHeld(s, records[..|records| - 1], records[|records| - 1].body);
  }

  lemma {:induction false} Joined(s: State, records: seq<Control>, t: State, more: seq<Control>, u: State)
    requires Follows(s, records, t) && Follows(t, more, u)
    ensures Follows(s, records + more, u)
    decreases |more|
  {
    if more == [] {
      assert records + more == records;
    } else {
      var front, last := more[..|more| - 1], more[|more| - 1];
      var m := Shortened(t, more, u);
      Joined(s, records, t, front, m);
      Extended(s, records + front, m, last, u);
      assert records + more == records + front + [last];
    }
  }

  lemma One(s: State, c: Control, t: State)
    requires Appends(s, c, t)
    ensures Follows(s, [c], t)
  {}

  lemma Two(s: State, c: Control, t: State, d: Control, u: State)
    requires Appends(s, c, t) && Appends(t, d, u)
    ensures Follows(s, [c, d], u)
  {
    One(s, c, t);
    Extended(s, [c], t, d, u);
    assert [c] + [d] == [c, d];
  }

  lemma Alone(s: State, c: Control, t: State)
    requires Lands(s, c, t)
    ensures Agreed(s, [c])
  {
    One(s, c, t);
  }

  /** The same for a transaction under construction. */
  ghost predicate Reaches(s: State, records: seq<Control>, t: State) {
    Follows(s, records, t) && Inv(t) && Evolves(s, t)
  }

  lemma ReachesSelf(s: State)
    requires Inv(s)
    ensures Reaches(s, [], s)
  {
    EvolvesReflexive(s);
  }

  lemma ReachesNext(s: State, records: seq<Control>, t: State, c: Control, u: State)
    requires Reaches(s, records, t) && Lands(t, c, u)
    ensures Reaches(s, records + [c], u)
  {
    Extended(s, records, t, c, u);
    EvolvesTransitive(s, t, u);
  }

  lemma ReachesFurther(s: State, records: seq<Control>, t: State, more: seq<Control>, u: State)
    requires Reaches(s, records, t) && Reaches(t, more, u)
    ensures Reaches(s, records + more, u)
  {
    Joined(s, records, t, more, u);
    EvolvesTransitive(s, t, u);
  }

  lemma ReachesOnce(s: State, c: Control, t: State)
    requires Lands(s, c, t)
    ensures Reaches(s, [c], t)
  {
    One(s, c, t);
  }

  lemma ReachesAfter(s: State, c: Control, t: State, more: seq<Control>, u: State)
    requires Lands(s, c, t) && Reaches(t, more, u)
    ensures Reaches(s, [c] + more, u)
  {
    ReachesOnce(s, c, t);
    ReachesFurther(s, [c], t, more, u);
  }

  lemma ReachesTwice(s: State, c: Control, t: State, d: Control, u: State)
    requires Lands(s, c, t) && Lands(t, d, u)
    ensures Reaches(s, [c, d], u)
  {
    ReachesOnce(s, c, t);
    ReachesNext(s, [c], t, d, u);
    assert [c] + [d] == [c, d];
  }

  /** Two records that only together restore the invariant. */
  lemma ReachesPair(s: State, c: Control, t: State, d: Control, u: State)
    requires Appends(s, c, t) && Appends(t, d, u) && Inv(u) && Evolves(s, u)
    ensures Reaches(s, [c, d], u)
  {
    Two(s, c, t, d, u);
  }

  lemma ReachedAgreed(s: State, records: seq<Control>, t: State)
    requires Reaches(s, records, t)
    ensures Agreed(s, records)
  {}

  lemma NothingAgreed(s: State)
    requires Inv(s)
    ensures Agreed(s, [])
  {
    ReachesSelf(s);
  }
}

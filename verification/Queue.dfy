/** The admission queue: priority plus one point for every ageing interval waited. */
module Queue {
  import opened Records

  datatype Item = Item(key: Token, priority: int, enqueued: int)

  function Age(item: Item, now: int): nat { if now < item.enqueued then 0 else now - item.enqueued }

  function Score(item: Item, now: int, interval: int): int
    requires interval > 0
  {
    item.priority + Age(item, now) / interval
  }

  /** Higher scores first, then the longer wait, then the key. */
  predicate Ahead(a: Item, b: Item, now: int, interval: int)
    requires interval > 0
  {
    var x, y := Score(a, now, interval), Score(b, now, interval);
    if x != y then x > y else if a.enqueued != b.enqueued then a.enqueued < b.enqueued else a.key < b.key
  }

  /** A strict weak order: sorting by it is meaningful. */
  lemma StrictWeakOrder(a: Item, b: Item, c: Item, now: int, interval: int)
    requires interval > 0
    ensures !Ahead(a, a, now, interval)
    ensures Ahead(a, b, now, interval) && Ahead(b, c, now, interval) ==> Ahead(a, c, now, interval)
    ensures !Ahead(a, b, now, interval) && !Ahead(b, a, now, interval) ==> a == b
  {}

  predicate Ordered(items: seq<Item>, now: int, interval: int)
    requires interval > 0
  {
    forall i, j | 0 <= i < j < |items| :: !Ahead(items[j], items[i], now, interval)
  }

  function Placed(item: Item, items: seq<Item>, now: int, interval: int): (r: seq<Item>)
    requires interval > 0 && Ordered(items, now, interval)
    ensures Ordered(r, now, interval) && multiset(r) == multiset(items) + multiset{item}
    decreases |items|
  {
    if items == [] then [item]
    else if Ahead(item, items[0], now, interval) then
      PlacedFirst(item, items, now, interval);
      [item] + items
    else
      var rest := Placed(item, items[1..], now, interval);
      PlacedLater(item, items, rest, now, interval);
      [items[0]] + rest
  }

  lemma PlacedFirst(item: Item, items: seq<Item>, now: int, interval: int)
    requires interval > 0 && Ordered(items, now, interval) && items != [] && Ahead(item, items[0], now, interval)
    ensures Ordered([item] + items, now, interval) && multiset([item] + items) == multiset(items) + multiset{item}
  {}

  lemma PlacedLater(item: Item, items: seq<Item>, rest: seq<Item>, now: int, interval: int)
    requires interval > 0 && Ordered(items, now, interval) && items != [] && !Ahead(item, items[0], now, interval)
    requires Ordered(rest, now, interval) && multiset(rest) == multiset(items[1..]) + multiset{item}
    ensures Ordered([items[0]] + rest, now, interval) && multiset([items[0]] + rest) == multiset(items) + multiset{item}
  {
    assert items == [items[0]] + items[1..];
    forall j | 0 <= j < |rest| ensures !Ahead(rest[j], items[0], now, interval) {
      assert rest[j] in multiset(rest);
      if rest[j] != item {
        assert rest[j] in items[1..];
        var k :| 0 <= k < |items[1..]| && items[1..][k] == rest[j];
        assert items[k + 1] == rest[j];
      }
    }
  }

  // ------------------------------------------------------------------------ whole intervals

  lemma Multiple(a: int, interval: int)
    requires interval > 0 && a >= 1
    ensures a * interval >= interval
  {}

  lemma Quotient(x: int, q: int, r: int, interval: int)
    requires interval > 0 && x == q * interval + r && 0 <= r < interval
    ensures x / interval == q
  {
    var d, m := x / interval, x % interval;
    assert x == d * interval + m && 0 <= m < interval;
    assert (d - q) * interval == r - m && (q - d) * interval == m - r;
    if d > q { Multiple(d - q, interval); }
    if d < q { Multiple(q - d, interval); }
  }

  lemma DivideMore(x: nat, interval: int)
    requires interval > 0
    ensures (x + interval) / interval == x / interval + 1
  {
    var q, r := x / interval, x % interval;
    assert x + interval == (q + 1) * interval + r;
    Quotient(x + interval, q + 1, r, interval);
  }

  lemma {:induction false} DivideShift(x: nat, k: nat, interval: int)
    requires interval > 0
    ensures k * interval >= 0 && (x + k * interval) / interval == x / interval + k
    decreases k
  {
    if k > 0 {
      DivideShift(x, k - 1, interval);
      assert k * interval == (k - 1) * interval + interval;
      DivideMore(x + (k - 1) * interval, interval);
    }
  }

  lemma DivideMonotone(x: nat, y: nat, interval: int)
    requires interval > 0 && x <= y
    ensures x / interval <= y / interval
  {
    var c, d := x / interval, y / interval;
    assert x == c * interval + x % interval && y == d * interval + y % interval;
    assert c * interval == d * interval + (c - d) * interval;
    if c > d { Multiple(c - d, interval); }
  }

  lemma DivideSum(x: nat, d: nat, interval: int)
    requires interval > 0
    ensures (x + d) / interval ==
            x / interval + d / interval + (if x % interval + d % interval < interval then 0 else 1)
  {
    var q, r := x / interval + d / interval, x % interval + d % interval;
    assert x + d == q * interval + r;
    if r < interval {
      Quotient(x + d, q, r, interval);
    } else {
      assert (q + 1) * interval == q * interval + interval;
      Quotient(x + d, q + 1, r - interval, interval);
    }
  }

  // ------------------------------------------------------------------------- whose turn it is

  /** When an item began to wait; one that is enqueued later than now begins now. */
  function Since(item: Item, now: int): int { if now < item.enqueued then now else item.enqueued }

  /** The points that an item has gained over another by having waited longer: one for every
      whole interval between them, and one more if what remains of it completes an interval
      of the other's. */
  function Gained(a: Item, b: Item, now: int, interval: int): nat
    requires interval > 0
  {
    var d := Since(b, now) - Since(a, now);
    if d <= 0 then 0
    else d / interval + (if (now - Since(b, now)) % interval + d % interval < interval then 0 else 1)
  }

  /** Among equal priorities the earlier comes first, and then the smaller key. A lower
      priority comes first exactly when its item has gained the difference. */
  predicate Precedes(a: Item, b: Item, now: int, interval: int)
    requires interval > 0
  {
    if a.priority == b.priority then
      a.enqueued < b.enqueued || (a.enqueued == b.enqueued && a.key < b.key)
    else if a.priority < b.priority then b.priority - a.priority <= Gained(a, b, now, interval)
    else Gained(b, a, now, interval) < a.priority - b.priority
  }

  lemma GainedPoints(a: Item, b: Item, now: int, interval: int)
    requires interval > 0 && Since(a, now) <= Since(b, now)
    ensures Age(a, now) / interval == Age(b, now) / interval + Gained(a, b, now, interval)
  {
    DivideSum(now - Since(b, now), Since(b, now) - Since(a, now), interval);
  }

  /** The order of the scores is the order of the turns. */
  lemma AheadIff(a: Item, b: Item, now: int, interval: int)
    requires interval > 0
    ensures Ahead(a, b, now, interval) <==> Precedes(a, b, now, interval)
  {
    if Since(a, now) <= Since(b, now) { GainedPoints(a, b, now, interval); }
    if Since(b, now) <= Since(a, now) { GainedPoints(b, a, now, interval); }
  }

  /** Of any two places the item in the earlier one has precedence, unless they are equal. */
  predicate InTurn(items: seq<Item>, now: int, interval: int)
    requires interval > 0
  {
    forall i, j | 0 <= i < j < |items| :: items[i] == items[j] || Precedes(items[i], items[j], now, interval)
  }

  lemma OrderedInTurn(items: seq<Item>, now: int, interval: int)
    requires interval > 0
    ensures Ordered(items, now, interval) <==> InTurn(items, now, interval)
  {
    forall i, j | 0 <= i < j < |items|
      ensures !Ahead(items[j], items[i], now, interval) <==>
              items[i] == items[j] || Precedes(items[i], items[j], now, interval)
    {
      AheadIff(items[i], items[j], now, interval);
      StrictWeakOrder(items[i], items[j], items[i], now, interval);
    }
  }

  // ------------------------------------------------------------------------------ ordering

  method OrderQueue(items: seq<Item>, now: int, interval: int) returns (r: Option<seq<Item>>)
    ensures interval <= 0 ==> r.None?
    ensures interval > 0 ==> r.Some? && Ordered(r.value, now, interval) && multiset(r.value) == multiset(items)
    ensures interval > 0 ==> InTurn(r.value, now, interval)
  {
    if interval <= 0 { return None; }
    var ordered := [];
    for i := 0 to |items|
      invariant Ordered(ordered, now, interval) && multiset(ordered) == multiset(items[..i])
    {
      assert items[..i + 1] == items[..i] + [items[i]];
      ordered := Placed(items[i], ordered, now, interval);
    }
    assert items[..|items|] == items;
    OrderedInTurn(ordered, now, interval);
    r := Some(ordered);
  }

  // ---------------------------------------------------------------------------- ageing

  /** One priority point is worth one interval of waiting: an item that has waited that much
      longer for every point it lacks is ahead, whenever the queue is ordered. */
  lemma AgeingPreventsStarvation(low: Item, high: Item, now: int, interval: int)
    requires interval > 0 && low.priority < high.priority && low.enqueued <= now && high.enqueued <= now
    requires high.enqueued - low.enqueued >= (high.priority - low.priority) * interval
    ensures Ahead(low, high, now, interval)
  {
    var k := high.priority - low.priority;
    var x := now - high.enqueued;
    DivideShift(x, k, interval);
    DivideMonotone(x + k * interval, now - low.enqueued, interval);
    assert k * interval >= interval by { DivideShift(0, k - 1, interval);
        assert k * interval == (k - 1) * interval + interval; }
  }

  /** So it is placed ahead of the other in every ordering of every queue that holds both. */
  lemma PlacedAhead(low: Item, high: Item, ordered: seq<Item>, now: int, interval: int, i: nat, j: nat)
    requires interval > 0 && low.priority < high.priority && low.enqueued <= now && high.enqueued <= now
    requires high.enqueued - low.enqueued >= (high.priority - low.priority) * interval
    requires Ordered(ordered, now, interval) && i < |ordered| && j < |ordered| && ordered[i] == low
            && ordered[j] == high
    ensures i < j
  {
    AgeingPreventsStarvation(low, high, now, interval);
  }

  lemma GainedAtMost(a: Item, b: Item, now: int, interval: int, k: nat)
    requires interval > 0 && b.enqueued - a.enqueued <= k * interval && a.enqueued <= now
    ensures Gained(a, b, now, interval) <= k
  {
    var d := Since(b, now) - Since(a, now);
    if d > 0 {
      var q := d / interval;
      assert d == q * interval + d % interval;
      assert (q - k) * interval == q * interval - k * interval;
      if q > k { Multiple(q - k, interval); }
    }
  }

  /** A higher priority goes first while the other has not waited the difference in intervals,
      less one, longer than it: whenever the queue is ordered. */
  lemma PriorityHolds(high: Item, low: Item, ordered: seq<Item>, now: int, interval: int, i: nat, j: nat)
    requires interval > 0 && low.priority < high.priority && low.enqueued <= now
    requires high.enqueued - low.enqueued <= (high.priority - low.priority - 1) * interval
    requires InTurn(ordered, now, interval) && i < |ordered| && j < |ordered| && ordered[i] == high && ordered[j] == low
    ensures i < j
  {
    GainedAtMost(low, high, now, interval, high.priority - low.priority - 1);
  }

  /** Between that and the whole difference the reading of the clock decides, exactly so. */
  lemma BoundaryIff(high: Item, low: Item, now: int, interval: int)
    requires interval > 0 && low.priority < high.priority && low.enqueued <= high.enqueued <= now
    requires var k := high.priority - low.priority;
             (k - 1) * interval < high.enqueued - low.enqueued < k * interval
    ensures Precedes(low, high, now, interval) <==>
            (now - high.enqueued) % interval + (high.enqueued - low.enqueued) % interval >= interval
  {
    var k, d := high.priority - low.priority, high.enqueued - low.enqueued;
    assert k * interval == (k - 1) * interval + interval;
    Quotient(d, k - 1, d - (k - 1) * interval, interval);
  }
}

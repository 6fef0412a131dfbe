/** Capacity admission over resource vectors of 64-bit integers. */
module Admission {
  import opened Records

  const MAXIMUM: int := 0x7FFF_FFFF_FFFF_FFFF
  const DIMENSIONS: nat := 7

  /** CPU, memory, swap, storage, capture, inodes and processes, and named devices; the
      name 0 is the empty one. */
  datatype Vector = Vector(scalars: seq<int>, devices: map<Token, int>)

  type Resources = v: Vector | |v.scalars| == DIMENSIONS witness Vector([0, 0, 0, 0, 0, 0, 0], map[])

  function Device(r: Resources, name: Token): int { if name in r.devices then r.devices[name] else 0 }

  predicate Valid(r: Resources) {
    (forall k | 0 <= k < DIMENSIONS :: 0 <= r.scalars[k]) && (forall n | n in r.devices :: n != 0 && 0 <= r.devices[n])
  }

  /** Every value is a 64-bit integer. */
  predicate Int64(r: Resources) {
    (forall k | 0 <= k < DIMENSIONS :: -MAXIMUM - 1 <= r.scalars[k] <= MAXIMUM) &&
    (forall n | n in r.devices :: -MAXIMUM - 1 <= r.devices[n] <= MAXIMUM)
  }

  /** The same amount in every dimension and of every device, whether named or not. */
  ghost predicate Same(a: Resources, b: Resources) {
    (forall k | 0 <= k < DIMENSIONS :: a.scalars[k] == b.scalars[k]) && forall n :: Device(a, n) == Device(b, n)
  }

  ghost predicate AtMost(a: Resources, b: Resources) {
    (forall k | 0 <= k < DIMENSIONS :: a.scalars[k] <= b.scalars[k]) && forall n :: Device(a, n) <= Device(b, n)
  }

  function Sum(a: Resources, b: Resources): Resources {
    Vector(seq(DIMENSIONS, k requires 0 <= k < DIMENSIONS => a.scalars[k] + b.scalars[k]),
           map n | n in a.devices.Keys + b.devices.Keys :: Device(a, n) + Device(b, n))
  }

  predicate Representable(r: Resources) {
    (forall k | 0 <= k < DIMENSIONS :: r.scalars[k] <= MAXIMUM)
        && (forall n | n in r.devices :: r.devices[n] <= MAXIMUM)
  }

  /** Addition that refuses an invalid vector and any overflow. */
  function Added(a: Resources, b: Resources): Option<Resources> {
    if Valid(a) && Valid(b) && Representable(Sum(a, b)) then Some(Sum(a, b)) else None
  }

  predicate Fits(a: Resources, limit: Resources) {
    && Valid(a) && Valid(limit)
    && (forall k | 0 <= k < DIMENSIONS :: a.scalars[k] <= limit.scalars[k])
    && (forall n | n in a.devices :: a.devices[n] <= Device(limit, n))
  }

  function Difference(a: Resources, b: Resources): Resources {
    Vector(seq(DIMENSIONS, k requires 0 <= k < DIMENSIONS => a.scalars[k] - b.scalars[k]),
           map n | n in a.devices.Keys + b.devices.Keys :: Device(a, n) - Device(b, n))
  }

  function Subtracted(a: Resources, b: Resources): Option<Resources> {
    if Fits(b, a) then Some(Difference(a, b)) else None
  }

  // ------------------------------------------------------------------------ the loops

  method Validate(r: Resources) returns (ok: bool)
    ensures ok == Valid(r)
  {
    for k := 0 to DIMENSIONS
      invariant forall j | 0 <= j < k :: 0 <= r.scalars[j]
    {
      if r.scalars[k] < 0 { return false; }
    }
    var left := r.devices.Keys;
    while left != {}
      invariant left <= r.devices.Keys && forall n | n in r.devices && n !in left :: n != 0 && 0 <= r.devices[n]
      decreases |left|
    {
      var n :| n in left;
      if n == 0 || r.devices[n] < 0 { return false; }
      left := left - {n};
    }
    return true;
  }

  /** Each part is added where it lies, after a test that cannot itself overflow. */
  method AddScalars(a: seq<int>, b: seq<int>) returns (ok: bool, scalars: seq<int>)
    requires |a| == |b|
    ensures ok == forall k | 0 <= k < |a| :: a[k] + b[k] <= MAXIMUM
    ensures ok ==> |scalars| == |a| && forall k | 0 <= k < |a| :: scalars[k] == a[k] + b[k]
  {
    scalars := a;
    for k := 0 to |a|
      invariant |scalars| == |a|
      invariant forall j | 0 <= j < k :: scalars[j] == a[j] + b[j] <= MAXIMUM
      invariant forall j | k <= j < |a| :: scalars[j] == a[j]
    {
      if b[k] > MAXIMUM - scalars[k] { return false, scalars; }
      scalars := scalars[k := scalars[k] + b[k]];
    }
    ok := true;
  }

  function Get(m: map<Token, int>, n: Token): int { if n in m then m[n] else 0 }

  method AddDevices(a: map<Token, int>, b: map<Token, int>) returns (ok: bool, devices: map<Token, int>)
    ensures ok == forall n | n in b :: Get(a, n) + b[n] <= MAXIMUM
    ensures ok ==> forall n :: n in devices <==> n in a || n in b
    ensures ok ==> forall n | n in devices :: devices[n] == Get(a, n) + Get(b, n)
  {
    devices := a;
    var left := b.Keys;
    while left != {}
      invariant forall n | n in left :: n in b
      invariant forall n :: n in devices <==> n in a || (n in b && n !in left)
      invariant forall n | n in devices && n in left :: devices[n] == Get(a, n)
      invariant forall n | n in devices && n !in left :: devices[n] == Get(a, n) + Get(b, n)
      invariant forall n | n in b && n !in left :: Get(a, n) + b[n] <= MAXIMUM
      decreases |left|
    {
      var n :| n in left;
      var held := if n in devices then devices[n] else 0;
      assert held == Get(a, n);
      if b[n] > MAXIMUM - held { return false, devices; }
      devices := devices[n := held + b[n]];
      left := left - {n};
    }
    ok := true;
  }

  lemma SumOf(a: Resources, b: Resources, scalars: seq<int>, devices: map<Token, int>)
    requires |scalars| == DIMENSIONS && forall k | 0 <= k < DIMENSIONS :: scalars[k] == a.scalars[k] + b.scalars[k]
    requires forall n :: n in devices <==> n in a.devices || n in b.devices
    requires forall n | n in devices :: devices[n] == Get(a.devices, n) + Get(b.devices, n)
    ensures Vector(scalars, devices) == Sum(a, b)
  {}

  lemma SumRepresentable(a: Resources, b: Resources)
    requires Int64(a)
    ensures Representable(Sum(a, b)) <==>
            (forall k | 0 <= k < DIMENSIONS :: a.scalars[k] + b.scalars[k] <= MAXIMUM) &&
            (forall n | n in b.devices :: Get(a.devices, n) + b.devices[n] <= MAXIMUM)
  {
    var s := Sum(a, b);
    assert forall k | 0 <= k < DIMENSIONS :: s.scalars[k] == a.scalars[k] + b.scalars[k];
    assert forall n | n in b.devices :: n in s.devices && s.devices[n] == Get(a.devices, n) + b.devices[n];
  }

  method Add(a: Resources, b: Resources) returns (r: Option<Resources>)
    requires Int64(a) && Int64(b)
    ensures r == Added(a, b)
  {
    var validA := Validate(a);
    var validB := Validate(b);
    if !validA || !validB { return None; }
    SumRepresentable(a, b);
    var scalarsFit, scalars := AddScalars(a.scalars, b.scalars);
    if !scalarsFit { return None; }
    var devicesFit, devices := AddDevices(a.devices, b.devices);
    if !devicesFit { return None; }
    SumOf(a, b, scalars, devices);
    r := Some(Vector(scalars, devices));
  }

  // ------------------------------------------------------------------------- decisions

  datatype Request = Request(named: bool, lifetime: int, wanted: Resources, limits: Resources, observer: Resources,
      snapshot: Resources)

  datatype Capacity = Capacity(allocatable: Resources, reserved: Resources, warmPool: Resources, control: Resources)

  datatype Decision =
    | Admitted(before: Resources, remaining: Resources)
    | Invalid | OverLimit | UnderPressure | Insufficient | Overflow

  predicate IsZero(r: Resources) {
    (forall k | 0 <= k < DIMENSIONS :: r.scalars[k] == 0) && forall n | n in r.devices :: r.devices[n] == 0
  }

  predicate AllValid(q: Request, c: Capacity) {
    Valid(q.wanted) && Valid(q.limits) && Valid(q.observer) && Valid(q.snapshot) &&
    Valid(c.allocatable) && Valid(c.reserved) && Valid(c.warmPool) && Valid(c.control)
  }

  function Evaluate(q: Request, c: Capacity, pressure: bool): Decision {
    if !q.named || q.lifetime <= 0 || IsZero(q.wanted) || !AllValid(q, c) then Invalid
    else if !Fits(q.wanted, q.limits) then OverLimit
    else if pressure then UnderPressure
    else
      match Added(c.reserved, c.warmPool)
      case None => Overflow
      case Some(busy) =>
        match Added(busy, c.control)
        case None => Overflow
        case Some(unavailable) =>
          match Subtracted(c.allocatable, unavailable)
          case None => Insufficient
          case Some(available) =>
            match Added(q.wanted, q.observer)
            case None => Overflow
            case Some(some) =>
              match Added(some, q.snapshot)
              case None => Overflow
              case Some(required) =>
                match Subtracted(available, required)
                case None => Insufficient
                case Some(remaining) => Admitted(available, remaining)
  }

  /** What a request costs, and what is already spoken for, as unbounded integers. */
  function Cost(q: Request): Resources { Sum(Sum(q.wanted, q.observer), q.snapshot) }

  function Unavailable(c: Capacity): Resources { Sum(Sum(c.reserved, c.warmPool), c.control) }

  lemma SumDevice(a: Resources, b: Resources, n: Token)
    ensures Device(Sum(a, b), n) == Device(a, n) + Device(b, n)
  {}

  lemma SumValid(a: Resources, b: Resources)
    requires Valid(a) && Valid(b)
    ensures Valid(Sum(a, b))
  {}

  lemma FitsMeansAtMost(a: Resources, limit: Resources)
    requires Valid(a) && Valid(limit)
    ensures Fits(a, limit) <==> AtMost(a, limit)
  {}

  lemma DifferenceValid(a: Resources, b: Resources)
    requires Valid(a) && Valid(b) && AtMost(b, a)
    ensures Valid(Difference(a, b))
    ensures forall n :: Device(Difference(a, b), n) == Device(a, n) - Device(b, n)
  {}

  /** A sum that overflows is larger than anything representable. */
  lemma AtMostRepresentable(a: Resources, limit: Resources)
    requires Valid(a) && Representable(limit) && AtMost(a, limit)
    ensures Representable(a)
  {
    forall n | n in a.devices ensures a.devices[n] <= MAXIMUM { assert Device(a, n) <= Device(limit, n); }
  }

  lemma AtMostSum(a: Resources, b: Resources)
    requires Valid(a) && Valid(b)
    ensures AtMost(a, Sum(a, b)) && AtMost(b, Sum(a, b))
  {}

  lemma AtMostTransitive(a: Resources, b: Resources, c: Resources)
    requires AtMost(a, b) && AtMost(b, c)
    ensures AtMost(a, c)
  {}

  predicate Eligible(q: Request, c: Capacity) {
    q.named && q.lifetime > 0 && !IsZero(q.wanted) && AllValid(q, c) && Fits(q.wanted, q.limits)
        && Representable(c.allocatable)
  }

  lemma AddedIs(a: Resources, b: Resources, limit: Resources)
    requires Valid(a) && Valid(b) && Representable(limit) && AtMost(Sum(a, b), limit)
    ensures Added(a, b) == Some(Sum(a, b)) && AtMost(a, limit) && AtMost(b, limit)
  {
    SumValid(a, b);
    AtMostRepresentable(Sum(a, b), limit);
    AtMostSum(a, b);
    AtMostTransitive(a, Sum(a, b), limit);
    AtMostTransitive(b, Sum(a, b), limit);
  }

  lemma SumAt(a: Resources, b: Resources)
    ensures forall k | 0 <= k < DIMENSIONS :: Sum(a, b).scalars[k] == a.scalars[k] + b.scalars[k]
    ensures forall n :: Device(Sum(a, b), n) == Device(a, n) + Device(b, n)
  {}

  lemma DifferenceAt(a: Resources, b: Resources)
    ensures forall k | 0 <= k < DIMENSIONS :: Difference(a, b).scalars[k] == a.scalars[k] - b.scalars[k]
    ensures forall n :: Device(Difference(a, b), n) == Device(a, n) - Device(b, n)
  {}

  /** What is left fits exactly what the whole leaves room for. */
  lemma LeftOver(whole: Resources, used: Resources, more: Resources)
    requires Valid(whole) && Valid(used) && Valid(more) && AtMost(used, whole)
    ensures AtMost(more, Difference(whole, used)) <==> AtMost(Sum(used, more), whole)
  {
    var left, sum := Difference(whole, used), Sum(used, more);
    DifferenceAt(whole, used);
    SumAt(used, more);
    if AtMost(more, left) {
      forall n ensures Device(sum, n) <= Device(whole, n) { assert Device(more, n) <= Device(left, n); }
    }
    if AtMost(sum, whole) {
      forall n ensures Device(more, n) <= Device(left, n) { assert Device(sum, n) <= Device(whole, n); }
    }
  }

  lemma ThreeAdd(a: Resources, b: Resources, d: Resources, limit: Resources)
    requires Valid(a) && Valid(b) && Valid(d) && Representable(limit) && AtMost(Sum(Sum(a, b), d), limit)
    ensures Added(a, b) == Some(Sum(a, b)) && Added(Sum(a, b), d) == Some(Sum(Sum(a, b), d))
  {
    SumValid(a, b);
    AddedIs(Sum(a, b), d, limit);
    AddedIs(a, b, limit);
  }

  lemma Enough(q: Request, c: Capacity)
    requires Eligible(q, c) && AtMost(Sum(Unavailable(c), Cost(q)), c.allocatable)
    ensures Evaluate(q, c, false) ==
            Admitted(Difference(c.allocatable, Unavailable(c)),
                Difference(Difference(c.allocatable, Unavailable(c)), Cost(q)))
  {
    var u, r, all := Unavailable(c), Cost(q), c.allocatable;
    AllSumsValid(q, c);
    AtMostSum(u, r);
    AtMostTransitive(u, Sum(u, r), all);
    AtMostTransitive(r, Sum(u, r), all);
    ThreeAdd(c.reserved, c.warmPool, c.control, all);
    ThreeAdd(q.wanted, q.observer, q.snapshot, all);
    FitsMeansAtMost(u, all);
    DifferenceValid(all, u);
    LeftOver(all, u, r);
    FitsMeansAtMost(r, Difference(all, u));
  }

  lemma AllSumsValid(q: Request, c: Capacity)
    requires AllValid(q, c)
    ensures Valid(Unavailable(c)) && Valid(Cost(q))
  {}

  lemma OnlyEnough(q: Request, c: Capacity)
    requires Eligible(q, c) && Evaluate(q, c, false).Admitted?
    ensures AtMost(Sum(Unavailable(c), Cost(q)), c.allocatable)
  {
    var u, r, all := Unavailable(c), Cost(q), c.allocatable;
    AllSumsValid(q, c);
    assert Fits(u, all) && Fits(r, Difference(all, u));
    FitsMeansAtMost(u, all);
    DifferenceValid(all, u);
    FitsMeansAtMost(r, Difference(all, u));
    LeftOver(all, u, r);
  }

  /** An eligible request without pressure is admitted exactly when everything together
      fits the allocatable vector in every dimension and device, as unbounded integers. */
  lemma ExactAdmission(q: Request, c: Capacity)
    requires Eligible(q, c)
    ensures Evaluate(q, c, false).Admitted? <==> AtMost(Sum(Unavailable(c), Cost(q)), c.allocatable)
  {
    if AtMost(Sum(Unavailable(c), Cost(q)), c.allocatable) { Enough(q, c); }
    if Evaluate(q, c, false).Admitted? { OnlyEnough(q, c); }
  }

  predicate WellFormed(q: Request, c: Capacity) {
    q.named && q.lifetime > 0 && !IsZero(q.wanted) && AllValid(q, c)
  }

  lemma PartRepresentable(a: Resources, b: Resources)
    requires Valid(a) && Valid(b) && Representable(Sum(a, b))
    ensures Representable(a)
  {
    forall n | n in a.devices ensures a.devices[n] <= MAXIMUM {
      SumDevice(a, b, n);
      assert n in Sum(a, b).devices;
    }
    forall k | 0 <= k < DIMENSIONS ensures a.scalars[k] <= MAXIMUM {
      assert Sum(a, b).scalars[k] == a.scalars[k] + b.scalars[k];
    }
  }

  /** Adding three vectors is refused exactly when their sum cannot be represented. */
  lemma ChainAdds(a: Resources, b: Resources, d: Resources)
    requires Valid(a) && Valid(b) && Valid(d)
    ensures Representable(Sum(Sum(a, b), d)) ==>
            Added(a, b) == Some(Sum(a, b)) && Added(Sum(a, b), d) == Some(Sum(Sum(a, b), d))
    ensures !Representable(Sum(Sum(a, b), d)) ==> Added(a, b).None? || Added(Added(a, b).value, d).None?
  {
    SumValid(a, b);
    if Representable(Sum(Sum(a, b), d)) { PartRepresentable(Sum(a, b), d); }
  }

  /** Whether the sums that a decision needs can be represented. */
  ghost predicate Countable(q: Request, c: Capacity) {
    Representable(Unavailable(c)) && (AtMost(Unavailable(c), c.allocatable) ==> Representable(Cost(q)))
  }

  lemma CountedDecision(q: Request, c: Capacity)
    requires Eligible(q, c)
    ensures Evaluate(q, c, false).Overflow? <==> !Countable(q, c)
    ensures var d := Evaluate(q, c, false); d.Overflow? || d.Insufficient? || d.Admitted?
  {
    AllSumsValid(q, c);
    ChainAdds(c.reserved, c.warmPool, c.control);
    ChainAdds(q.wanted, q.observer, q.snapshot);
    FitsMeansAtMost(Unavailable(c), c.allocatable);
  }

  /** Every refusal has its cause, and every cause its refusal: a malformed request or
      capacity; more than the limits; pressure; sums that cannot be represented; and
      otherwise not enough. Under pressure nothing is admitted. */
  lemma DecisionIs(q: Request, c: Capacity, pressure: bool)
    requires Representable(c.allocatable)
    ensures var d := Evaluate(q, c, pressure);
            && (d.Invalid? <==> !WellFormed(q, c))
            && (d.OverLimit? <==> WellFormed(q, c) && !AtMost(q.wanted, q.limits))
            && (d.UnderPressure? <==> WellFormed(q, c) && AtMost(q.wanted, q.limits) && pressure)
            && (d.Overflow? <==> WellFormed(q, c) && AtMost(q.wanted, q.limits) && !pressure && !Countable(q, c))
            && (d.Admitted? <==> WellFormed(q, c) && AtMost(q.wanted, q.limits) && !pressure
                                 && AtMost(Sum(Unavailable(c), Cost(q)), c.allocatable))
  {
    if WellFormed(q, c) {
      FitsMeansAtMost(q.wanted, q.limits);
      if AtMost(q.wanted, q.limits) {
        CountedDecision(q, c);
        ExactAdmission(q, c);
      }
    }
  }

  /** Nothing is lost: what was spoken for, what is granted and what remains make up the whole. */
  lemma Conservation(q: Request, c: Capacity)
    requires Eligible(q, c) && Evaluate(q, c, false).Admitted?
    ensures Same(Sum(Sum(Unavailable(c), Cost(q)), Evaluate(q, c, false).remaining), c.allocatable)
  {
    OnlyEnough(q, c);
    Enough(q, c);
    var u, r, all := Unavailable(c), Cost(q), c.allocatable;
    var rest := Difference(Difference(all, u), r);
    AllSumsValid(q, c);
    AtMostSum(u, r);
    AtMostTransitive(u, Sum(u, r), all);
    DifferenceValid(all, u);
    LeftOver(all, u, r);
    DifferenceValid(Difference(all, u), r);
    forall n ensures Device(Sum(Sum(u, r), rest), n) == Device(all, n) {
      SumDevice(Sum(u, r), rest, n);
      SumDevice(u, r, n);
    }
  }

  // ------------------------------------------------------------------------------ runs

  /** The reservations after a request: an admitted cost is added, nothing else is. */
  function Reserve(c: Capacity, q: Request, pressure: bool): Capacity {
    if Evaluate(q, c, pressure).Admitted? then c.(reserved := Sum(c.reserved, Cost(q))) else c
  }

  /** Under pressure the reservations stay as they are, whatever is asked for. */
  lemma PressureReservesNothing(c: Capacity, q: Request)
    ensures !Evaluate(q, c, true).Admitted? && Reserve(c, q, true) == c
  {}

  function Reservations(c: Capacity, qs: seq<(Request, bool)>): Capacity {
    if qs == [] then c else Reserve(Reservations(c, qs[..|qs| - 1]), qs[|qs| - 1].0, qs[|qs| - 1].1)
  }

  /** Everything spoken for fits the allocatable vector. */
  ghost predicate Committed(c: Capacity) {
    && Valid(c.allocatable) && Representable(c.allocatable) && Valid(c.reserved) && Valid(c.warmPool)
    && Valid(c.control)
    && AtMost(Unavailable(c), c.allocatable)
  }

  lemma Moved(c: Capacity, cost: Resources)
    requires Valid(c.reserved) && Valid(c.warmPool) && Valid(c.control) && Valid(cost)
    ensures Same(Unavailable(c.(reserved := Sum(c.reserved, cost))), Sum(Unavailable(c), cost))
  {
    var d := c.(reserved := Sum(c.reserved, cost));
    forall n ensures Device(Unavailable(d), n) == Device(Sum(Unavailable(c), cost), n) {
      SumDevice(Sum(d.reserved, d.warmPool), d.control, n);
      SumDevice(d.reserved, d.warmPool, n);
      SumDevice(c.reserved, cost, n);
      SumDevice(Unavailable(c), cost, n);
      SumDevice(Sum(c.reserved, c.warmPool), c.control, n);
      SumDevice(c.reserved, c.warmPool, n);
    }
  }

  lemma SameAtMost(a: Resources, b: Resources, limit: Resources)
    requires Same(a, b) && AtMost(b, limit)
    ensures AtMost(a, limit)
  {}

  lemma StaysCommitted(c: Capacity, q: Request, pressure: bool)
    requires Committed(c)
    ensures Committed(Reserve(c, q, pressure))
  {
    if Evaluate(q, c, pressure).Admitted? {
      assert Eligible(q, c) && Evaluate(q, c, false) == Evaluate(q, c, pressure);
      OnlyEnough(q, c);
      AllSumsValid(q, c);
      SumValid(c.reserved, Cost(q));
      Moved(c, Cost(q));
      SameAtMost(Unavailable(Reserve(c, q, pressure)), Sum(Unavailable(c), Cost(q)), c.allocatable);
    }
  }

  /** However many requests are decided one after the other, capacity is never over-committed. */
  lemma {:induction false} NeverOverCommitted(c: Capacity, qs: seq<(Request, bool)>)
    requires Committed(c)
    ensures Committed(Reservations(c, qs)) && Reservations(c, qs).allocatable == c.allocatable
    decreases |qs|
  {
    if qs != [] {
      NeverOverCommitted(c, qs[..|qs| - 1]);
      StaysCommitted(Reservations(c, qs[..|qs| - 1]), qs[|qs| - 1].0, qs[|qs| - 1].1);
    }
  }
}

/** Canonical encodings: length-prefixed strings, maps in key order, and the
    capability fingerprint built from them. */
module Encodings {
  import opened Idempotency

  // ---------------------------------------------------------------- order on strings

  predicate Less(a: Bytes, b: Bytes)
    decreases |a|
  {
    b != [] && (a == [] || a[0] < b[0] || (a[0] == b[0] && Less(a[1..], b[1..])))
  }

  lemma {:induction false} LessTransitive(a: Bytes, b: Bytes, c: Bytes)
    requires Less(a, b) && Less(b, c)
    ensures Less(a, c)
    decreases |a|
  {
    if a != [] && a[0] == b[0] == c[0] { LessTransitive(a[1..], b[1..], c[1..]); }
  }

  lemma {:induction false} LessTotal(a: Bytes, b: Bytes)
    ensures Less(a, b) || a == b || Less(b, a)
    ensures !(Less(a, b) && Less(b, a)) && !Less(a, a)
    decreases |a|
  {
    if a != [] && b != [] && a[0] == b[0] {
      LessTotal(a[1..], b[1..]);
      LessTotal(a[1..], a[1..]);
      assert a == [a[0]] + a[1..] && b == [b[0]] + b[1..];
    } else if a != [] {
      LessTotal(a[1..], a[1..]);
    }
  }

  predicate Increasing(keys: seq<Bytes>) { forall i, j | 0 <= i < j < |keys| :: Less(keys[i], keys[j]) }

  function InsertKey(x: Bytes, keys: seq<Bytes>): (r: seq<Bytes>)
    requires Increasing(keys) && x !in keys
    ensures Increasing(r) && |r| == |keys| + 1
    ensures forall y :: y in r <==> y == x || y in keys
  {
    if keys == [] then [x]
    else if Less(x, keys[0]) then
      assert forall j | 1 <= j < |keys| :: Less(keys[0], keys[j]);
      InsertFirst(x, keys);
      [x] + keys
    else
      var rest := InsertKey(x, keys[1..]);
      LessTotal(x, keys[0]);
      assert forall k | 0 <= k < |rest| :: rest[k] in rest;
      assert forall k | 0 <= k < |keys[1..]| :: Less(keys[0], keys[1..][k]);
      [keys[0]] + rest
  }

  lemma InsertFirst(x: Bytes, keys: seq<Bytes>)
    requires Increasing(keys) && keys != [] && Less(x, keys[0])
    ensures forall j | 0 <= j < |keys| :: Less(x, keys[j])
  {
    forall j | 0 <= j < |keys| ensures Less(x, keys[j]) {
      if j > 0 { LessTransitive(x, keys[0], keys[j]); }
    }
  }

  /** Two increasing lists with the same members are the same list. */
  lemma {:induction false} IncreasingUnique(xs: seq<Bytes>, ys: seq<Bytes>)
    requires Increasing(xs) && Increasing(ys) && forall x :: x in xs <==> x in ys
    ensures xs == ys
    decreases |xs|
  {
    assert (|xs| > 0 ==> xs[0] in xs) && (|ys| > 0 ==> ys[0] in ys);
    if |xs| > 0 {
      LessTotal(xs[0], ys[0]);
      assert xs[0] == ys[0];
      forall x ensures x in xs[1..] <==> x in ys[1..] {
        LessTotal(xs[0], xs[0]);
        assert x in xs[1..] <==> x in xs && x != xs[0];
        assert x in ys[1..] <==> x in ys && x != ys[0];
      }
      IncreasingUnique(xs[1..], ys[1..]);
    }
  }

  /** The keys of a map in order, whatever order the map is read in. */
  method SortedKeys<V>(m: map<Bytes, V>) returns (keys: seq<Bytes>)
    ensures Increasing(keys) && forall k :: k in keys <==> k in m
  {
    keys := [];
    var left := m.Keys;
    while left != {}
      invariant left <= m.Keys && Increasing(keys)
      invariant forall k :: k in keys <==> k in m && k !in left
      decreases |left|
    {
      var k :| k in left;
      keys := InsertKey(k, keys);
      left := left - {k};
    }
  }

  ghost function KeySeq(keys: set<Bytes>): (r: seq<Bytes>)
    ensures Increasing(r) && |r| == |keys| && forall k :: k in r <==> k in keys
  {
    if keys == {} then []
    else
      var k :| k in keys;
      InsertKey(k, KeySeq(keys - {k}))
  }

  // ------------------------------------------------------------------- strings and maps

  const WORD: nat := 0x1_0000_0000

  /** A string behind its length as four bytes. */
  function Str(s: Bytes): Bytes { BigEndian(|s|, 4) + s }

  function Entries(keys: seq<Bytes>, m: map<Bytes, Bytes>): Bytes
    requires forall k | k in keys :: k in m
  {
    if keys == [] then [] else Str(keys[0]) + Str(m[keys[0]]) + Entries(keys[1..], m)
  }

  ghost function MapBytes(m: map<Bytes, Bytes>): Bytes { BigEndian(|m|, 4) + Entries(KeySeq(m.Keys), m) }

  method WriteCanonicalMap(buffer: Bytes, m: map<Bytes, Bytes>) returns (r: Bytes)
    ensures r == buffer + MapBytes(m)
  {
    var count := BigEndian(|m|, 4);
    r := buffer + count;
    var keys := SortedKeys(m);
    IncreasingUnique(keys, KeySeq(m.Keys));
    ghost var all := r + Entries(keys, m);
    assert keys[0..] == keys;
    for i := 0 to |keys|
      invariant forall k | k in keys[i..] :: k in m
      invariant r + Entries(keys[i..], m) == all
    {
      assert keys[i..][0] == keys[i] && keys[i..][1..] == keys[i + 1..] && keys[i] in keys;
      Moved(r, Str(keys[i]), Str(m[keys[i]]), Entries(keys[i + 1..], m));
      r := r + Str(keys[i]) + Str(m[keys[i]]);
    }
    assert keys[|keys|..] == [];
    Nothing(r);
    Assoc(buffer, count, Entries(keys, m));
  }

  lemma Moved(a: Bytes, b: Bytes, c: Bytes, d: Bytes)
    ensures a + b + c + d == a + (b + c + d)
  {}

  // ------------------------------------------------------------------ unique decoding

  lemma SplitEqual(a: Bytes, x: Bytes, b: Bytes, y: Bytes)
    requires |a| == |b| && a + x == b + y
    ensures a == b && x == y
  {
    assert a == (a + x)[..|a|] && b == (b + y)[..|b|] && x == (a + x)[|a|..] && y == (b + y)[|b|..];
  }

  lemma Assoc4(a: Bytes, b: Bytes, c: Bytes, d: Bytes)
    ensures a + b + c + d == a + (b + (c + d))
  {}

  lemma Assoc5(a: Bytes, b: Bytes, c: Bytes, d: Bytes, e: Bytes)
    ensures (a + (b + (c + d))) + e == a + (b + (c + (d + e)))
  {}

  lemma CountSplit(m: nat, x: Bytes, n: nat, y: Bytes, width: nat)
    requires m < Power(width) && n < Power(width) && BigEndian(m, width) + x == BigEndian(n, width) + y
    ensures m == n && x == y
  {
    SplitEqual(BigEndian(m, width), x, BigEndian(n, width), y);
    BigEndianInjective(m, n, width);
  }

  lemma Power4()
    ensures Power(4) == WORD
  {}

  /** A string ends where its length says, whatever follows. */
  lemma StrSplit(a: Bytes, x: Bytes, b: Bytes, y: Bytes)
    requires |a| < WORD && |b| < WORD && Str(a) + x == Str(b) + y
    ensures a == b && x == y
  {
    Power4();
    Assoc(BigEndian(|a|, 4), a, x);
    Assoc(BigEndian(|b|, 4), b, y);
    CountSplit(|a|, a + x, |b|, b + y, 4);
    SplitEqual(a, x, b, y);
  }

  ghost predicate Small(m: map<Bytes, Bytes>, bound: nat) {
    |m| < WORD && forall k | k in m :: |k| < bound && |m[k]| < bound
  }

  lemma {:induction false} EntriesSplit(ks: seq<Bytes>, m: map<Bytes, Bytes>, x: Bytes, ls: seq<Bytes>, n: map<Bytes,
      Bytes>, y: Bytes)
    requires |ks| == |ls| && (forall k | k in ks :: k in m && |k| < WORD && |m[k]| < WORD)
    requires forall k | k in ls :: k in n && |k| < WORD && |n[k]| < WORD
    requires Entries(ks, m) + x == Entries(ls, n) + y
    ensures ks == ls && x == y && forall k | k in ks :: m[k] == n[k]
    decreases |ks|
  {
    if ks == [] {
      Nothing(x);
      Nothing(y);
    } else {
      var k, l := ks[0], ls[0];
      var p, q := Entries(ks[1..], m) + x, Entries(ls[1..], n) + y;
      Assoc4(Str(k), Str(m[k]), Entries(ks[1..], m), x);
      Assoc4(Str(l), Str(n[l]), Entries(ls[1..], n), y);
      StrSplit(k, Str(m[k]) + p, l, Str(n[l]) + q);
      StrSplit(m[k], p, n[l], q);
      EntriesSplit(ks[1..], m, x, ls[1..], n, y);
      HeadAndRest(ks);
      HeadAndRest(ls);
    }
  }

  lemma Nothing(x: Bytes)
    ensures [] + x == x == x + []
  {}

  lemma HeadAndRest(ks: seq<Bytes>)
    requires ks != []
    ensures ks == [ks[0]] + ks[1..] && forall k | k in ks :: k == ks[0] || k in ks[1..]
  {}

  lemma SameMap<V>(ks: seq<Bytes>, m: map<Bytes, V>, n: map<Bytes, V>)
    requires (forall k :: k in ks <==> k in m) && (forall k :: k in ks <==> k in n) && forall k | k in ks ::
            m[k] == n[k]
    ensures m == n
  {}

  /** The bytes of a map determine the map, and where it ends. */
  lemma MapSplit(m: map<Bytes, Bytes>, x: Bytes, n: map<Bytes, Bytes>, y: Bytes)
    requires Small(m, WORD) && Small(n, WORD) && MapBytes(m) + x == MapBytes(n) + y
    ensures m == n && x == y
  {
    Power4();
    var ks, ls := KeySeq(m.Keys), KeySeq(n.Keys);
    Assoc(BigEndian(|m|, 4), Entries(ks, m), x);
    Assoc(BigEndian(|n|, 4), Entries(ls, n), y);
    CountSplit(|m|, Entries(ks, m) + x, |n|, Entries(ls, n) + y, 4);
    EntriesSplit(ks, m, x, ls, n, y);
    SameMap(ks, m, n);
  }

  // ------------------------------------------------------------------------ fingerprints

  datatype Status = Unknown | Unsupported | Supported

  datatype Capability = Capability(status: Status, constraints: map<Bytes, Bytes>, evidence: map<Bytes, Bytes>)

  function Text(s: Status): (r: Bytes)
    ensures 4 <= |r| < WORD
  {
    match s
    case Unknown => [0x75, 0x6E, 0x6B, 0x6E, 0x6F, 0x77, 0x6E]
    case Unsupported => [0x75, 0x6E, 0x73, 0x75, 0x70, 0x70, 0x6F, 0x72, 0x74, 0x65, 0x64]
    case Supported => [0x73, 0x75, 0x70, 0x70, 0x6F, 0x72, 0x74, 0x65, 0x64]
  }

  /** The number that the first four bytes of a status would be as a length. */
  function AsLength(s: Status): nat {
    match s case Unknown => 0x756E6B6E case Unsupported => 0x756E7375 case Supported => 0x73757070
  }

  const SHORTEST_CLASH: nat := 0x73757070

  lemma OneDigit(q: nat, d: nat, width: nat)
    requires d < 256
    ensures BigEndian(q * 256 + d, width + 1) == BigEndian(q, width) + [d]
  {}

  lemma FourDigits(a: nat, b: nat, c: nat, d: nat)
    requires a < 256 && b < 256 && c < 256 && d < 256
    ensures BigEndian(((a * 256 + b) * 256 + c) * 256 + d, 4) == [a, b, c, d]
  {
    OneDigit(0, a, 0);
    OneDigit(a, b, 1);
    OneDigit(a * 256 + b, c, 2);
    OneDigit((a * 256 + b) * 256 + c, d, 3);
  }

  lemma TextAsLength(s: Status)
    ensures Text(s)[..4] == BigEndian(AsLength(s), 4) && SHORTEST_CLASH <= AsLength(s) < WORD
  {
    match s
    case Unknown => FourDigits(0x75, 0x6E, 0x6B, 0x6E);
    case Unsupported => FourDigits(0x75, 0x6E, 0x73, 0x75);
    case Supported => FourDigits(0x73, 0x75, 0x70, 0x70);
  }

  lemma TextDetermines(s: Status, t: Status)
    requires Text(s) == Text(t)
    ensures s == t
  {}

  ghost function CapabilityBytes(name: Bytes, c: Capability): Bytes {
    Str(name) + (Str(Text(c.status)) + (MapBytes(c.constraints) + MapBytes(c.evidence)))
  }

  ghost function Listing(names: seq<Bytes>, caps: map<Bytes, Capability>): Bytes
    requires forall n | n in names :: n in caps
  {
    if names == [] then [] else CapabilityBytes(names[0], caps[names[0]]) + Listing(names[1..], caps)
  }

  /** "fingerprint-evidence", which is also a legal capability name. */
  const END: Bytes := [0x66, 0x69, 0x6E, 0x67, 0x65, 0x72, 0x70, 0x72, 0x69, 0x6E, 0x74, 0x2D, 0x65, 0x76, 0x69, 0x64,
      0x65, 0x6E, 0x63, 0x65]

  /** The capabilities carry no count: the list ends at a marker. */
  ghost function Fingerprint(header: Bytes, caps: map<Bytes, Capability>, evidence: map<Bytes, Bytes>): Bytes {
    Str(header) + (Listing(KeySeq(caps.Keys), caps) + (Str(END) + MapBytes(evidence)))
  }

  ghost predicate Short(c: Capability) { Small(c.constraints, SHORTEST_CLASH) && Small(c.evidence, SHORTEST_CLASH) }

  lemma Cut(t: Bytes, rest: Bytes)
    requires |t| >= 4
    ensures t + rest == t[..4] + (t[4..] + rest)
  {}

  lemma FirstKeyAsLength(ks: seq<Bytes>, m: map<Bytes, Bytes>, s: Status, rest: Bytes)
    requires ks != [] && (forall k | k in ks :: k in m) && |ks[0]| < WORD && Entries(ks, m) == Text(s) + rest
    ensures |ks[0]| == AsLength(s)
  {
    Power4();
    var k := ks[0];
    var e := Entries(ks[1..], m);
    Assoc(Str(k), Str(m[k]), e);
    Assoc(BigEndian(|k|, 4), k, Str(m[k]) + e);
    Cut(Text(s), rest);
    TextAsLength(s);
    CountSplit(|k|, k + (Str(m[k]) + e), AsLength(s), Text(s)[4..] + rest, 4);
  }

  /** The evidence cannot be mistaken for a capability named like the marker: its first
      key would have to be as long as the first letters of a status read as a number. */
  lemma NoClash(evidence: map<Bytes, Bytes>, s: Status, rest: Bytes)
    requires Small(evidence, SHORTEST_CLASH)
    ensures MapBytes(evidence) != Str(Text(s)) + rest
  {
    if MapBytes(evidence) == Str(Text(s)) + rest {
      Power4();
      var ks := KeySeq(evidence.Keys);
      Assoc(BigEndian(|Text(s)|, 4), Text(s), rest);
      CountSplit(|evidence|, Entries(ks, evidence), |Text(s)|, Text(s) + rest, 4);
      FirstKeyAsLength(ks, evidence, s, rest);
    }
  }

  lemma CapabilitySplit(n: Bytes, c: Capability, x: Bytes, l: Bytes, d: Capability, y: Bytes)
    requires |n| < WORD && |l| < WORD && Short(c) && Short(d)
    requires CapabilityBytes(n, c) + x == CapabilityBytes(l, d) + y
    ensures n == l && c == d && x == y
  {
    var u, v := MapBytes(c.constraints) + (MapBytes(c.evidence) + x),
        MapBytes(d.constraints) + (MapBytes(d.evidence) + y);
    Assoc5(Str(n), Str(Text(c.status)), MapBytes(c.constraints), MapBytes(c.evidence), x);
    Assoc5(Str(l), Str(Text(d.status)), MapBytes(d.constraints), MapBytes(d.evidence), y);
    StrSplit(n, Str(Text(c.status)) + u, l, Str(Text(d.status)) + v);
    StrSplit(Text(c.status), u, Text(d.status), v);
    TextDetermines(c.status, d.status);
    MapSplit(c.constraints, MapBytes(c.evidence) + x, d.constraints, MapBytes(d.evidence) + y);
    MapSplit(c.evidence, x, d.evidence, y);
  }

  lemma EndIsNoCapability(e: map<Bytes, Bytes>, l: Bytes, d: Capability, rest: Bytes)
    requires |l| < WORD && Small(e, SHORTEST_CLASH)
    ensures Str(END) + MapBytes(e) != CapabilityBytes(l, d) + rest
  {
    var tail := MapBytes(d.constraints) + (MapBytes(d.evidence) + rest);
    Assoc5(Str(l), Str(Text(d.status)), MapBytes(d.constraints), MapBytes(d.evidence), rest);
    if Str(END) + MapBytes(e) == CapabilityBytes(l, d) + rest {
      StrSplit(END, MapBytes(e), l, Str(Text(d.status)) + tail);
      NoClash(e, d.status, tail);
    }
  }

  ghost predicate ShortAll(names: seq<Bytes>, caps: map<Bytes, Capability>) {
    forall n | n in names :: n in caps && |n| < WORD && Short(caps[n])
  }

  lemma EndIsNoListing(e: map<Bytes, Bytes>, ls: seq<Bytes>, d: map<Bytes, Capability>, y: Bytes)
    requires Small(e, SHORTEST_CLASH) && ShortAll(ls, d) && ls != []
    ensures Str(END) + MapBytes(e) != Listing(ls, d) + y
  {
    Assoc(CapabilityBytes(ls[0], d[ls[0]]), Listing(ls[1..], d), y);
    EndIsNoCapability(e, ls[0], d[ls[0]], Listing(ls[1..], d) + y);
  }

  lemma HeadsSplit(ns: seq<Bytes>, c: map<Bytes, Capability>, x: Bytes, ls: seq<Bytes>, d: map<Bytes, Capability>,
      y: Bytes)
    requires ShortAll(ns, c) && ShortAll(ls, d) && ns != [] && ls != []
    requires Listing(ns, c) + x == Listing(ls, d) + y
    ensures ns[0] == ls[0] && c[ns[0]] == d[ls[0]]
    ensures ShortAll(ns[1..], c) && ShortAll(ls[1..], d) && Listing(ns[1..], c) + x == Listing(ls[1..], d) + y
  {
    Assoc(CapabilityBytes(ns[0], c[ns[0]]), Listing(ns[1..], c), x);
    Assoc(CapabilityBytes(ls[0], d[ls[0]]), Listing(ls[1..], d), y);
    CapabilitySplit(ns[0], c[ns[0]], Listing(ns[1..], c) + x, ls[0], d[ls[0]], Listing(ls[1..], d) + y);
  }

  lemma {:induction false} ListingSplit(ns: seq<Bytes>, c: map<Bytes, Capability>, e: map<Bytes, Bytes>,
      ls: seq<Bytes>, d: map<Bytes, Capability>, f: map<Bytes, Bytes>)
    requires ShortAll(ns, c) && ShortAll(ls, d) && Small(e, SHORTEST_CLASH) && Small(f, SHORTEST_CLASH)
    requires Listing(ns, c) + (Str(END) + MapBytes(e)) == Listing(ls, d) + (Str(END) + MapBytes(f))
    ensures ns == ls && e == f && forall n | n in ns :: c[n] == d[n]
    decreases |ns|
  {
    var x, y := Str(END) + MapBytes(e), Str(END) + MapBytes(f);
    if ns == [] && ls == [] {
      Nothing(x);
      Nothing(y);
      EndsAlike(e, f);
    } else if ns == [] {
      Nothing(x);
      EndIsNoListing(e, ls, d, y);
    } else if ls == [] {
      Nothing(y);
      EndIsNoListing(f, ns, c, x);
    } else {
      HeadsSplit(ns, c, x, ls, d, y);
      ListingSplit(ns[1..], c, e, ls[1..], d, f);
      HeadAndRest(ns);
      HeadAndRest(ls);
    }
  }

  lemma EndsAlike(e: map<Bytes, Bytes>, f: map<Bytes, Bytes>)
    requires Small(e, SHORTEST_CLASH) && Small(f, SHORTEST_CLASH) && Str(END) + MapBytes(e) == Str(END) + MapBytes(f)
    ensures e == f
  {
    StrSplit(END, MapBytes(e), END, MapBytes(f));
    Nothing(MapBytes(e));
    Nothing(MapBytes(f));
    MapSplit(e, [], f, []);
  }

  /** The bytes of a fingerprint determine the capabilities and the evidence. */
  lemma FingerprintInjective(header: Bytes, c: map<Bytes, Capability>, e: map<Bytes, Bytes>, d: map<Bytes, Capability>,
      f: map<Bytes, Bytes>)
    requires |header| < WORD && Small(e, SHORTEST_CLASH) && Small(f, SHORTEST_CLASH)
    requires (forall n | n in c :: |n| < WORD && Short(c[n])) && (forall n | n in d :: |n| < WORD && Short(d[n]))
    requires Fingerprint(header, c, e) == Fingerprint(header, d, f)
    ensures c == d && e == f
  {
    var ns, ls := KeySeq(c.Keys), KeySeq(d.Keys);
    StrSplit(header, Listing(ns, c) + (Str(END) + MapBytes(e)), header, Listing(ls, d) + (Str(END) + MapBytes(f)));
    ListingSplit(ns, c, e, ls, d, f);
    SameMap(ns, c, d);
  }
}

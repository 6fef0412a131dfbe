/** Idempotency keys and the keys derived from them, over bytes. The digest is a
    parameter; where distinct pairs must give distinct keys, it is assumed not to
    collide on the messages at hand. */
module Idempotency {

  type Byte = b: int | 0 <= b < 256
  type Bytes = seq<Byte>

  const MAXIMUM: nat := 1024
  const SLASH: Byte := 0x2F

  lemma Assoc(a: Bytes, b: Bytes, c: Bytes)
    ensures a + b + c == a + (b + c)
  {}

  // ------------------------------------------------------------------------- UTF-8

  predicate Continuation(b: Byte) { 0x80 <= b <= 0xBF }

  /** The length of the well-formed sequence at the start of some bytes; 0 if there is none. */
  function RuneLength(s: Bytes): (n: nat)
    ensures n <= |s| && n <= 4
  {
    if |s| >= 1 && s[0] < 0x80 then 1
    else if |s| >= 2 && 0xC2 <= s[0] <= 0xDF && Continuation(s[1]) then 2
    else if |s| >= 3 && 0xE0 <= s[0] <= 0xEF && Continuation(s[1]) && Continuation(s[2]) &&
            (s[0] == 0xE0 ==> 0xA0 <= s[1]) && (s[0] == 0xED ==> s[1] <= 0x9F) then 3
    else if |s| >= 4 && 0xF0 <= s[0] <= 0xF4 && Continuation(s[1]) && Continuation(s[2]) && Continuation(s[3]) &&
            (s[0] == 0xF0 ==> 0x90 <= s[1]) && (s[0] == 0xF4 ==> s[1] <= 0x8F) then 4
    else 0
  }

  predicate ValidUtf8(s: Bytes)
    decreases |s|
  {
    s == [] || (RuneLength(s) > 0 && ValidUtf8(s[RuneLength(s)..]))
  }

  lemma RuneLengthStays(a: Bytes, b: Bytes)
    requires RuneLength(a) > 0
    ensures RuneLength(a + b) == RuneLength(a)
  {}

  lemma Rest(a: Bytes, b: Bytes, n: nat)
    requires n <= |a|
    ensures (a + b)[n..] == a[n..] + b
  {}

  lemma {:induction false} ValidConcat(a: Bytes, b: Bytes)
    requires ValidUtf8(a) && ValidUtf8(b)
    ensures ValidUtf8(a + b)
    decreases |a|
  {
    if a == [] {
      assert a + b == b;
    } else {
      var n := RuneLength(a);
      ValidConcat(a[n..], b);
      RuneLengthStays(a, b);
      Rest(a, b, n);
    }
  }

  predicate Ascii(s: Bytes) { forall k | 0 <= k < |s| :: s[k] < 0x80 }

  lemma {:induction false} ValidAscii(s: Bytes)
    requires Ascii(s)
    ensures ValidUtf8(s)
    decreases |s|
  {
    if s != [] { ValidAscii(s[1..]); }
  }

  lemma ValidRune(s: Bytes)
    requires RuneLength(s) > 0
    ensures ValidUtf8(s[..RuneLength(s)])
  {
    var first := s[..RuneLength(s)];
    assert RuneLength(first) == |first|;
    assert first[|first|..] == [];
  }

  lemma ValidOneMore(s: Bytes, k: nat)
    requires RuneLength(s) > 0 && k <= |s[RuneLength(s)..]| && ValidUtf8(s[RuneLength(s)..][..k])
    ensures ValidUtf8(s[..RuneLength(s) + k])
  {
    var l := RuneLength(s);
    ValidRune(s);
    ValidConcat(s[..l], s[l..][..k]);
    assert s[..l] + s[l..][..k] == s[..l + k];
  }

  /** A valid text cut anywhere has a valid prefix at most three bytes shorter. */
  lemma {:induction false} ValidPrefix(s: Bytes, n: nat) returns (k: nat)
    requires ValidUtf8(s) && n <= |s|
    ensures k <= n <= k + 3 && ValidUtf8(s[..k])
    decreases |s|
  {
    var l := RuneLength(s);
    if n < l || s == [] {
      k := 0;
    } else {
      k := ValidPrefix(s[l..], n - l);
      ValidOneMore(s, k);
      k := l + k;
    }
  }

  /** The longest valid prefix. */
  function LongestValid(s: Bytes): (r: Bytes)
    ensures r <= s && ValidUtf8(r)
    decreases |s|
  {
    if ValidUtf8(s) then s else LongestValid(s[..|s| - 1])
  }

  lemma {:induction false} LongestValidIsLongest(s: Bytes, k: nat)
    requires k <= |s| && ValidUtf8(s[..k])
    ensures k <= |LongestValid(s)|
    decreases |s|
  {
    if !ValidUtf8(s) {
      assert s[..|s|] == s;
      assert s[..|s| - 1][..k] == s[..k];
      LongestValidIsLongest(s[..|s| - 1], k);
    }
  }

  function Truncated(s: Bytes, maximum: nat): Bytes {
    if |s| <= maximum then s else LongestValid(s[..maximum])
  }

  method TruncateValidUtf8(s: Bytes, maximum: nat) returns (r: Bytes)
    ensures r == Truncated(s, maximum)
  {
    if |s| <= maximum { return s; }
    r := s[..maximum];
    while !ValidUtf8(r)
      invariant LongestValid(r) == LongestValid(s[..maximum])
      decreases |r|
    {
      r := r[..|r| - 1];
    }
  }

  /** Truncating a valid text gives a valid prefix and loses at most three bytes more than it must. */
  lemma TruncatedValid(s: Bytes, maximum: nat)
    requires ValidUtf8(s)
    ensures Truncated(s, maximum) <= s && |Truncated(s, maximum)| <= maximum && ValidUtf8(Truncated(s, maximum))
    ensures |s| > maximum ==> |Truncated(s, maximum)| + 3 >= maximum
  {
    if |s| > maximum {
      var k := ValidPrefix(s, maximum);
      assert s[..maximum][..k] == s[..k];
      LongestValidIsLongest(s[..maximum], k);
    }
  }

  // ------------------------------------------------------------------ canonical keys

  /** The white space that trimming removes, encoded. */
  predicate Space(s: Bytes) {
    || (|s| == 1 && (0x09 <= s[0] <= 0x0D || s[0] == 0x20))
    || (|s| == 2 && s[0] == 0xC2 && (s[1] == 0x85 || s[1] == 0xA0))
    || (|s| == 3 && s[0] == 0xE1 && s[1] == 0x9A && s[2] == 0x80)
    || (|s| == 3 && s[0] == 0xE2 && s[1] == 0x80
        && (0x80 <= s[2] <= 0x8A || s[2] == 0xA8 || s[2] == 0xA9 || s[2] == 0xAF))
    || (|s| == 3 && s[0] == 0xE2 && s[1] == 0x81 && s[2] == 0x9F)
    || (|s| == 3 && s[0] == 0xE3 && s[1] == 0x80 && s[2] == 0x80)
  }

  predicate StartsWithSpace(s: Bytes) {
    (|s| >= 1 && Space(s[..1])) || (|s| >= 2 && Space(s[..2])) || (|s| >= 3 && Space(s[..3]))
  }

  predicate SpaceTail(s: Bytes, n: nat) { n <= |s| && Space(s[|s| - n..]) }

  predicate EndsWithSpace(s: Bytes) { SpaceTail(s, 1) || SpaceTail(s, 2) || SpaceTail(s, 3) }

  predicate Canonical(s: Bytes) {
    s != [] && |s| <= MAXIMUM && !StartsWithSpace(s) && !EndsWithSpace(s) && ValidUtf8(s)
  }

  // -------------------------------------------------------------------- derived keys

  function Hex(n: int): Byte
    requires 0 <= n < 16
  {
    if n < 10 then 0x30 + n else 0x57 + n
  }

  function HexText(d: Bytes): (r: Bytes)
    ensures |r| == 2 * |d|
    ensures HexDigits(r)
  {
    if d == [] then [] else [Hex(d[0] / 16), Hex(d[0] % 16)] + HexText(d[1..])
  }

  lemma {:induction false} HexTextInjective(a: Bytes, b: Bytes)
    requires |a| == |b| && HexText(a) == HexText(b)
    ensures a == b
    decreases |a|
  {
    if a != [] {
      assert HexText(a)[0] == HexText(b)[0] && HexText(a)[1] == HexText(b)[1];
      assert HexText(a)[2..] == HexText(a[1..]) && HexText(b)[2..] == HexText(b[1..]);
      HexTextInjective(a[1..], b[1..]);
    }
  }

  /** "//sha256:" */
  const MARKER: Bytes := [0x2F, 0x2F, 0x73, 0x68, 0x61, 0x32, 0x35, 0x36, 0x3A]

  /** A number as big-endian bytes. */
  function BigEndian(n: nat, width: nat): (r: Bytes)
    ensures |r| == width
  {
    if width == 0 then [] else BigEndian(n / 256, width - 1) + [n % 256]
  }

  function Power(width: nat): nat { if width == 0 then 1 else 256 * Power(width - 1) }

  lemma {:induction false} BigEndianInjective(a: nat, b: nat, width: nat)
    requires a < Power(width) && b < Power(width) && BigEndian(a, width) == BigEndian(b, width)
    ensures a == b
    decreases width
  {
    if width > 0 {
      var x, y := BigEndian(a, width), BigEndian(b, width);
      assert x[width - 1] == y[width - 1] && x[..width - 1] == BigEndian(a / 256, width - 1)
          && y[..width - 1] == BigEndian(b / 256, width - 1);
      BigEndianInjective(a / 256, b / 256, width - 1);
    }
  }

  function Framed(s: Bytes): Bytes { BigEndian(|s|, 8) + s }

  /** The bytes whose digest identifies a pair: the length of each part comes first. */
  function Message(domain: Bytes, parent: Bytes, suffix: Bytes): Bytes { domain + Framed(parent) + Framed(suffix) }

  lemma Power8()
    ensures Power(8) == 0x1_0000_0000_0000_0000
  {}

  lemma MessageInjective(domain: Bytes, p: Bytes, s: Bytes, q: Bytes, t: Bytes)
    requires |p| <= MAXIMUM && |s| <= MAXIMUM && |q| <= MAXIMUM && |t| <= MAXIMUM
    requires Message(domain, p, s) == Message(domain, q, t)
    ensures p == q && s == t
  {
    var m := Message(domain, p, s);
    var d := |domain|;
    Power8();
    assert m[d..d + 8] == BigEndian(|p|, 8) && m[d..d + 8] == BigEndian(|q|, 8);
    BigEndianInjective(|p|, |q|, 8);
    assert m[d + 8..d + 8 + |p|] == p && m[d + 8..d + 8 + |q|] == q;
    assert m[d + 16 + |p|..] == s && m[d + 16 + |q|..] == t;
  }

  /** The digest function and the constant that separates its uses. */
  datatype Hash = Hash(domain: Bytes, digest: Bytes -> Bytes)

  ghost predicate Sized(h: Hash) { forall m :: |h.digest(m)| == 32 }

  function PairDigest(h: Hash, parent: Bytes, suffix: Bytes): Bytes { h.digest(Message(h.domain, parent, suffix)) }

  function Readable(parent: Bytes, suffix: Bytes): Bytes { parent + [SLASH] + suffix }

  predicate Unambiguous(parent: Bytes, suffix: Bytes) {
    SLASH !in parent && SLASH !in suffix && |Readable(parent, suffix)| <= MAXIMUM
  }

  function Marker(h: Hash, parent: Bytes, suffix: Bytes): Bytes { MARKER + HexText(PairDigest(h, parent, suffix)) }

  /** The key of a child: empty when a part is not canonical. */
  function Derive(h: Hash, parent: Bytes, suffix: Bytes): Bytes
    requires Sized(h)
  {
    if !Canonical(parent) || !Canonical(suffix) then []
    else if Unambiguous(parent, suffix) then Readable(parent, suffix)
    else Marked(h, parent, suffix)
  }

  /** The form of an ambiguous or overlong pair: as much of the readable form as fits, and the digest. */
  function Marked(h: Hash, parent: Bytes, suffix: Bytes): Bytes
    requires Sized(h)
  {
    var marker := Marker(h, parent, suffix);
    Truncated(Readable(parent, suffix), MAXIMUM - |marker|) + marker
  }

  lemma MarkedForm(h: Hash, parent: Bytes, suffix: Bytes)
    requires Sized(h)
    ensures Marked(h, parent, suffix) ==
            Truncated(Readable(parent, suffix), MAXIMUM - 73) + (MARKER + HexText(PairDigest(h, parent, suffix)))
  {}

  lemma ReadableStarts(parent: Bytes, suffix: Bytes)
    requires parent != [] && suffix != [] && !StartsWithSpace(parent)
    ensures !StartsWithSpace(Readable(parent, suffix))
  {}

  lemma ReadableEnds(parent: Bytes, suffix: Bytes)
    requires parent != [] && suffix != [] && !EndsWithSpace(suffix)
    ensures !EndsWithSpace(Readable(parent, suffix))
  {
    TailNoSpace(parent, suffix, 1);
    TailNoSpace(parent, suffix, 2);
    TailNoSpace(parent, suffix, 3);
  }

  /** No encoded space holds a slash. */
  lemma SlashIsNoSpace(s: Bytes, k: nat)
    requires k < |s| && s[k] == SLASH
    ensures !Space(s)
  {}

  lemma TailNoSpace(parent: Bytes, suffix: Bytes, n: nat)
    requires !SpaceTail(suffix, n)
    ensures !SpaceTail(Readable(parent, suffix), n)
  {
    var r := Readable(parent, suffix);
    if n <= |suffix| { assert r[|r| - n..] == suffix[|suffix| - n..]; }
    else if n <= |r| { SlashIsNoSpace(r[|r| - n..], n - 1 - |suffix|); }
  }

  lemma ReadableValid(parent: Bytes, suffix: Bytes)
    requires ValidUtf8(parent) && ValidUtf8(suffix)
    ensures ValidUtf8(Readable(parent, suffix))
  {
    ValidAscii([SLASH]);
    ValidConcat(parent, [SLASH]);
    ValidConcat(parent + [SLASH], suffix);
  }

  predicate HexDigits(text: Bytes) { forall k | 0 <= k < |text| :: 0x30 <= text[k] <= 0x39 || 0x61 <= text[k] <= 0x66 }

  lemma MarkedValid(prefix: Bytes, marker: Bytes, text: Bytes)
    requires ValidUtf8(prefix) && Ascii(marker) && HexDigits(text)
    ensures ValidUtf8(prefix + (marker + text))
  {
    ValidAscii(marker + text);
    ValidConcat(prefix, marker + text);
  }

  lemma MarkedEnds(prefix: Bytes, marker: Bytes, text: Bytes)
    requires |text| >= 3 && HexDigits(text)
    ensures !EndsWithSpace(prefix + (marker + text))
  {}

  lemma MarkedStarts(r: Bytes, prefix: Bytes, rest: Bytes)
    requires |r| >= 3 && !StartsWithSpace(r) && prefix <= r && |prefix| >= 3
    ensures !StartsWithSpace(prefix + rest)
  {}

  lemma MarkedIsCanonical(r: Bytes, marker: Bytes, text: Bytes)
    requires |r| >= 3 && ValidUtf8(r) && !StartsWithSpace(r) && |marker| == 9 && Ascii(marker)
    requires |text| == 64 && HexDigits(text)
    ensures Canonical(Truncated(r, MAXIMUM - 73) + (marker + text))
  {
    var prefix := Truncated(r, MAXIMUM - 73);
    TruncatedValid(r, MAXIMUM - 73);
    MarkedValid(prefix, marker, text);
    MarkedEnds(prefix, marker, text);
    MarkedStarts(r, prefix, marker + text);
  }

  lemma MarkedCanonical(h: Hash, parent: Bytes, suffix: Bytes)
    requires Sized(h) && parent != [] && suffix != [] && ValidUtf8(Readable(parent, suffix))
            && !StartsWithSpace(Readable(parent, suffix))
    ensures Canonical(Marked(h, parent, suffix))
  {
    MarkedForm(h, parent, suffix);
    MarkedIsCanonical(Readable(parent, suffix), MARKER, HexText(PairDigest(h, parent, suffix)));
  }

  /** A derived key is itself canonical: valid text, stable under trimming, and bounded. */
  lemma DerivedIsCanonical(h: Hash, parent: Bytes, suffix: Bytes)
    requires Sized(h) && Canonical(parent) && Canonical(suffix)
    ensures Canonical(Derive(h, parent, suffix))
  {
    ReadableValid(parent, suffix);
    ReadableStarts(parent, suffix);
    ReadableEnds(parent, suffix);
    MarkedCanonical(h, parent, suffix);
  }

  // --------------------------------------------------------------- distinct pairs

  predicate NoCollision(h: Hash, p: Bytes, s: Bytes, q: Bytes, t: Bytes) {
    PairDigest(h, p, s) == PairDigest(h, q, t) ==> Message(h.domain, p, s) == Message(h.domain, q, t)
  }

  function Slashes(s: Bytes): nat { if s == [] then 0 else (if s[0] == SLASH then 1 else 0) + Slashes(s[1..]) }

  lemma {:induction false} SlashesConcat(a: Bytes, b: Bytes)
    ensures Slashes(a + b) == Slashes(a) + Slashes(b)
    decreases |a|
  {
    if a == [] { assert a + b == b; }
    else { SlashesConcat(a[1..], b); assert (a + b)[1..] == a[1..] + b; }
  }

  lemma {:induction false} NoSlashes(s: Bytes)
    ensures Slashes(s) == 0 <==> SLASH !in s
    decreases |s|
  {
    if s != [] {
      NoSlashes(s[1..]);
      assert SLASH in s <==> s[0] == SLASH || SLASH in s[1..];
    }
  }

  lemma ReadableSlashes(parent: Bytes, suffix: Bytes)
    requires Unambiguous(parent, suffix)
    ensures Slashes(Readable(parent, suffix)) == 1
  {
    NoSlashes(parent);
    NoSlashes(suffix);
    SlashesConcat(parent, [SLASH]);
    SlashesConcat(parent + [SLASH], suffix);
  }

  lemma MarkedSlashes(h: Hash, parent: Bytes, suffix: Bytes)
    requires Sized(h)
    ensures Slashes(Marked(h, parent, suffix)) >= 2
  {
    MarkedForm(h, parent, suffix);
    var text := HexText(PairDigest(h, parent, suffix));
    SlashesConcat(Truncated(Readable(parent, suffix), MAXIMUM - 73), MARKER + text);
    SlashesConcat(MARKER, text);
    TwoSlashes(MARKER);
  }

  lemma TwoSlashes(s: Bytes)
    requires |s| >= 2 && s[0] == SLASH && s[1] == SLASH
    ensures Slashes(s) >= 2
  {}

  lemma FirstSlash(r: Bytes, i: nat, j: nat)
    requires i <= |r| && j < |r| && SLASH !in r[..i] && r[j] == SLASH
    ensures i <= j
  {}

  lemma ReadableInjective(p: Bytes, s: Bytes, q: Bytes, t: Bytes)
    requires SLASH !in p && SLASH !in q && Readable(p, s) == Readable(q, t)
    ensures p == q && s == t
  {
    var r := Readable(p, s);
    assert r[..|p|] == p && r[..|q|] == q;
    FirstSlash(r, |p|, |q|);
    FirstSlash(r, |q|, |p|);
    assert r[|p| + 1..] == s && r[|q| + 1..] == t;
  }

  lemma TextInjective(a: Bytes, b: Bytes, x: Bytes, y: Bytes)
    requires |x| == |y| && a + x == b + y
    ensures x == y
  {
    assert (a + x)[|a + x| - |x|..] == x && (b + y)[|b + y| - |y|..] == y;
  }

  lemma MarkedInjective(h: Hash, p: Bytes, s: Bytes, q: Bytes, t: Bytes)
    requires Sized(h) && Marked(h, p, s) == Marked(h, q, t)
    ensures PairDigest(h, p, s) == PairDigest(h, q, t)
  {
    MarkedForm(h, p, s);
    MarkedForm(h, q, t);
    var x, y := HexText(PairDigest(h, p, s)), HexText(PairDigest(h, q, t));
    TextInjective(Truncated(Readable(p, s), MAXIMUM - 73), Truncated(Readable(q, t), MAXIMUM - 73), MARKER + x,
        MARKER + y);
    TextInjective(MARKER, MARKER, x, y);
    HexTextInjective(PairDigest(h, p, s), PairDigest(h, q, t));
  }

  /** Distinct pairs have distinct keys, whichever form each of them takes. */
  lemma DeriveInjective(h: Hash, p: Bytes, s: Bytes, q: Bytes, t: Bytes)
    requires Sized(h) && Canonical(p) && Canonical(s) && Canonical(q) && Canonical(t)
    requires NoCollision(h, p, s, q, t) && Derive(h, p, s) == Derive(h, q, t)
    ensures p == q && s == t
  {
    if Unambiguous(p, s) && Unambiguous(q, t) {
      ReadableInjective(p, s, q, t);
    } else if Unambiguous(p, s) {
      ReadableSlashes(p, s);
      MarkedSlashes(h, q, t);
    } else if Unambiguous(q, t) {
      ReadableSlashes(q, t);
      MarkedSlashes(h, p, s);
    } else {
      MarkedInjective(h, p, s, q, t);
      MessageInjective(h.domain, p, s, q, t);
    }
  }

  // ------------------------------------------------------------------ nested derivation

  function Front(xs: seq<Bytes>): seq<Bytes>
    requires xs != []
  {
    xs[..|xs| - 1]
  }

  function End(xs: seq<Bytes>): Bytes
    requires xs != []
  {
    xs[|xs| - 1]
  }

  /** A key derived step by step from a root. */
  function Chain(h: Hash, root: Bytes, suffixes: seq<Bytes>): Bytes
    requires Sized(h)
    decreases |suffixes|
  {
    if suffixes == [] then root else Derive(h, Chain(h, root, Front(suffixes)), End(suffixes))
  }

  ghost predicate AllCanonical(suffixes: seq<Bytes>) { forall k | 0 <= k < |suffixes| :: Canonical(suffixes[k]) }

  lemma {:induction false} ChainCanonical(h: Hash, root: Bytes, suffixes: seq<Bytes>)
    requires Sized(h) && Canonical(root) && AllCanonical(suffixes)
    ensures Canonical(Chain(h, root, suffixes))
    decreases |suffixes|
  {
    if suffixes != [] {
      ChainCanonical(h, root, Front(suffixes));
      DerivedIsCanonical(h, Chain(h, root, Front(suffixes)), End(suffixes));
    }
  }

  /** No pairs digested at the same distance from the ends of two chains collide. */
  ghost predicate ChainsApart(h: Hash, r: Bytes, xs: seq<Bytes>, q: Bytes, ys: seq<Bytes>)
    requires Sized(h)
    decreases |xs|
  {
    xs != [] && ys != [] ==>
      && NoCollision(h, Chain(h, r, Front(xs)), End(xs), Chain(h, q, Front(ys)), End(ys))
      && ChainsApart(h, r, Front(xs), q, Front(ys))
  }

  /** The last pair of a chain. */
  ghost predicate Last(h: Hash, key: Bytes, p: Bytes, s: Bytes)
    requires Sized(h)
  {
    Canonical(p) && Canonical(s) && key == Derive(h, p, s)
  }

  lemma FrontCanonical(xs: seq<Bytes>)
    requires AllCanonical(xs) && xs != []
    ensures AllCanonical(Front(xs)) && Canonical(End(xs))
  {}

  lemma ChainUnfolds(h: Hash, r: Bytes, xs: seq<Bytes>)
    requires Sized(h) && xs != []
    ensures Chain(h, r, xs) == Derive(h, Chain(h, r, Front(xs)), End(xs))
  {}

  lemma ChainEnds(h: Hash, r: Bytes, xs: seq<Bytes>)
    requires Sized(h) && Canonical(r) && AllCanonical(xs) && xs != []
    ensures Last(h, Chain(h, r, xs), Chain(h, r, Front(xs)), End(xs)) && AllCanonical(Front(xs))
  {
    FrontCanonical(xs);
    ChainCanonical(h, r, Front(xs));
    ChainUnfolds(h, r, xs);
  }

  lemma LastSteps(h: Hash, key: Bytes, p: Bytes, s: Bytes, q: Bytes, t: Bytes)
    requires Sized(h) && Last(h, key, p, s) && Last(h, key, q, t) && NoCollision(h, p, s, q, t)
    ensures p == q && s == t
  {
    DeriveInjective(h, p, s, q, t);
  }

  lemma ReadableHasSlash(p: Bytes, s: Bytes)
    ensures SLASH in Readable(p, s)
  {
    assert Readable(p, s)[|p|] == SLASH;
  }

  lemma DerivedHasSlash(h: Hash, p: Bytes, s: Bytes)
    requires Sized(h) && Canonical(p) && Canonical(s)
    ensures SLASH in Derive(h, p, s)
  {
    ReadableHasSlash(p, s);
    MarkedSlashes(h, p, s);
    NoSlashes(Marked(h, p, s));
  }

  /** A root is a key without a slash, and no child is one. */
  lemma RootIsNoChild(h: Hash, r: Bytes, xs: seq<Bytes>)
    requires Sized(h) && Canonical(r) && AllCanonical(xs) && SLASH !in Chain(h, r, xs)
    ensures xs == []
  {
    if xs != [] {
      ChainEnds(h, r, xs);
      DerivedHasSlash(h, Chain(h, r, Front(xs)), End(xs));
    }
  }

  /** Different chains of any lengths end in different keys. */
  lemma {:induction false} ChainInjective(h: Hash, r: Bytes, xs: seq<Bytes>, q: Bytes, ys: seq<Bytes>)
    requires Sized(h) && Canonical(r) && Canonical(q) && SLASH !in r && SLASH !in q
    requires AllCanonical(xs) && AllCanonical(ys) && ChainsApart(h, r, xs, q, ys)
    requires Chain(h, r, xs) == Chain(h, q, ys)
    ensures r == q && xs == ys
    decreases |xs|
  {
    if xs == [] {
      RootIsNoChild(h, q, ys);
    } else if ys == [] {
      RootIsNoChild(h, r, xs);
    } else {
      ChainEnds(h, r, xs);
      ChainEnds(h, q, ys);
      LastSteps(h, Chain(h, r, xs), Chain(h, r, Front(xs)), End(xs), Chain(h, q, Front(ys)), End(ys));
      ChainInjective(h, r, Front(xs), q, Front(ys));
      Rejoined(xs);
      Rejoined(ys);
    }
  }

  lemma Rejoined(xs: seq<Bytes>)
    requires xs != []
    ensures xs == Front(xs) + [End(xs)]
  {}
}

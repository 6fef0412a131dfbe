/** The binary frame format: magic, version, flags, payload length, payload, checksum.
    The checksum is a parameter. */
module Framing {
  import opened Idempotency

  datatype Frame = Frame(version: nat, flags: nat, payload: Bytes)

  const HEADER: nat := 12
  const TRAILER: nat := 4

  /** "GWFR" */
  const MAGIC: Bytes := [0x47, 0x57, 0x46, 0x52]

  type Checksum = Bytes -> nat

  ghost predicate Word(crc: Checksum) { forall m :: crc(m) < Power(4) }

  // ---------------------------------------------------------------------- numbers

  function Number(s: Bytes): nat { if s == [] then 0 else 256 * Number(s[..|s| - 1]) + s[|s| - 1] }

  lemma {:induction false} NumberOfBigEndian(n: nat, width: nat)
    requires n < Power(width)
    ensures Number(BigEndian(n, width)) == n
    decreases width
  {
    if width > 0 {
      NumberOfBigEndian(n / 256, width - 1);
      var b := BigEndian(n, width);
      assert b[..|b| - 1] == BigEndian(n / 256, width - 1) && b[|b| - 1] == n % 256;
    }
  }

  // ---------------------------------------------------------------------- encoding

  predicate Legal(f: Frame, maximum: nat) { 0 < f.version < Power(2) && f.flags < Power(2) && |f.payload| <= maximum }

  function Header(f: Frame): (h: Bytes)
    ensures |h| == HEADER
  {
    MAGIC + BigEndian(f.version, 2) + BigEndian(f.flags, 2) + BigEndian(|f.payload|, 4)
  }

  function Encoded(crc: Checksum, f: Frame): (r: Bytes)
    ensures |r| == HEADER + |f.payload| + TRAILER
  {
    Header(f) + f.payload + BigEndian(crc(Header(f) + f.payload), 4)
  }

  datatype MarshalError = ZeroVersion | Oversized

  datatype Marshalled = Encoding(bytes: Bytes) | Refused(error: MarshalError)

  /** Fills a buffer of the final size part by part. */
  method Marshal(crc: Checksum, f: Frame, maximum: nat) returns (r: Marshalled)
    ensures f.version == 0 ==> r == Refused(ZeroVersion)
    ensures f.version != 0 && |f.payload| > maximum ==> r == Refused(Oversized)
    ensures f.version != 0 && |f.payload| <= maximum ==> r == Encoding(Encoded(crc, f))
  {
    if f.version == 0 { return Refused(ZeroVersion); }
    if |f.payload| > maximum { return Refused(Oversized); }
    var n := |f.payload|;
    var encoded := new Byte[HEADER + n + TRAILER](_ => 0);
    ghost var want := Encoded(crc, f);
    assert want[..HEADER] == Header(f) && want[HEADER..HEADER + n] == f.payload;
    Put(encoded, 0, MAGIC, want);
    Put(encoded, 4, BigEndian(f.version, 2), want);
    Put(encoded, 6, BigEndian(f.flags, 2), want);
    Put(encoded, 8, BigEndian(n, 4), want);
    Put(encoded, HEADER, f.payload, want);
    assert encoded[..HEADER + n] == want[..HEADER + n] == Header(f) + f.payload;
    Put(encoded, HEADER + n, BigEndian(crc(encoded[..HEADER + n]), 4), want);
    assert encoded[..] == encoded[..HEADER + n + TRAILER];
    r := Encoding(encoded[..]);
  }

  /** Copies bytes into a buffer that already agrees with a text up to a position. */
  method Put(buffer: array<Byte>, at: nat, bytes: Bytes, ghost want: Bytes)
    requires at + |bytes| <= buffer.Length == |want| && buffer[..at] == want[..at] && want[at..at + |bytes|] == bytes
    modifies buffer
    ensures buffer[..at + |bytes|] == want[..at + |bytes|]
  {
    for k := 0 to |bytes|
      invariant buffer[..at + k] == want[..at + k]
    {
      assert want[at..at + |bytes|][k] == want[at + k];
      buffer[at + k] := bytes[k];
    }
  }

  // ---------------------------------------------------------------------- decoding

  datatype Outcome =
    | Got(frame: Frame, consumed: nat)
    | CleanEnd
    | Incomplete(consumed: nat)
    | BadMagic(consumed: nat)
    | BadVersion(consumed: nat)
    | TooLarge(consumed: nat)
    | BadChecksum(consumed: nat)

  /** One frame from what a stream still holds. A stream may end with an error instead of
      its end. */
  function Decoded(crc: Checksum, maximum: nat, s: Bytes, broken: bool): Outcome {
    if maximum == 0 then TooLarge(0)
    else if |s| < HEADER then (if s == [] && !broken then CleanEnd else Incomplete(|s|))
    else if s[..4] != MAGIC then BadMagic(HEADER)
    else if Number(s[4..6]) == 0 then BadVersion(HEADER)
    else
      var n := Number(s[8..12]);
      if n > maximum then TooLarge(HEADER)
      else if |s| < HEADER + n + TRAILER then Incomplete(|s|)
      else if Number(s[HEADER + n..HEADER + n + TRAILER]) != crc(s[..HEADER + n]) then BadChecksum(HEADER + n + TRAILER)
      else Got(Frame(Number(s[4..6]), Number(s[6..8]), s[HEADER..HEADER + n]), HEADER + n + TRAILER)
  }

  lemma HeaderParts(f: Frame)
    ensures Header(f)[..4] == MAGIC && Header(f)[4..6] == BigEndian(f.version, 2)
    ensures Header(f)[6..8] == BigEndian(f.flags, 2) && Header(f)[8..12] == BigEndian(|f.payload|, 4)
  {}

  lemma EncodedParts(crc: Checksum, f: Frame)
    ensures var e, n := Encoded(crc, f), |f.payload|;
            && e[..HEADER] == Header(f) && e[HEADER..HEADER + n] == f.payload
            && e[..HEADER + n] == Header(f) + f.payload
            && e[HEADER + n..] == BigEndian(crc(Header(f) + f.payload), 4)
  {}

  /** A stream whose beginning agrees with an encoded frame, as far as it goes. */
  ghost predicate Agrees(s: Bytes, e: Bytes, k: nat) { k <= |s| && k <= |e| && s[..k] == e[..k] }

  lemma Slice(s: Bytes, e: Bytes, k: nat, i: nat, j: nat)
    requires Agrees(s, e, k) && i <= j <= k
    ensures s[i..j] == e[i..j]
  {
    assert s[..k][i..j] == s[i..j] && e[..k][i..j] == e[i..j];
  }

  lemma HeaderDecoded(crc: Checksum, f: Frame, s: Bytes)
    requires Agrees(s, Encoded(crc, f), HEADER) && f.version < Power(2) && f.flags < Power(2) && |f.payload| < Power(4)
    ensures s[..4] == MAGIC && Number(s[4..6]) == f.version && Number(s[6..8]) == f.flags
            && Number(s[8..12]) == |f.payload|
  {
    var e := Encoded(crc, f);
    EncodedParts(crc, f);
    HeaderParts(f);
    Slice(s, e, HEADER, 0, 4);
    Slice(s, e, HEADER, 4, 6);
    Slice(s, e, HEADER, 6, 8);
    Slice(s, e, HEADER, 8, 12);
    assert e[..HEADER][..4] == e[..4] && e[..HEADER][4..6] == e[4..6] && e[..HEADER][6..8] == e[6..8]
        && e[..HEADER][8..12] == e[8..12];
    NumberOfBigEndian(f.version, 2);
    NumberOfBigEndian(f.flags, 2);
    NumberOfBigEndian(|f.payload|, 4);
  }

  /** Decoding gives back what was encoded, whatever follows. */
  lemma FrameRoundTrip(crc: Checksum, maximum: nat, f: Frame, rest: Bytes, broken: bool)
    requires Word(crc) && Legal(f, maximum) && 0 < maximum < Power(4)
    ensures Decoded(crc, maximum, Encoded(crc, f) + rest, broken) == Got(f, |Encoded(crc, f)|)
  {
    var e, n := Encoded(crc, f), |f.payload|;
    var s := e + rest;
    assert s[..|e|] == e;
    assert Agrees(s, e, |e|);
    HeaderDecoded(crc, f, s);
    EncodedParts(crc, f);
    Slice(s, e, |e|, HEADER, HEADER + n);
    Slice(s, e, |e|, HEADER + n, HEADER + n + TRAILER);
    Slice(s, e, |e|, 0, HEADER + n);
    NumberOfBigEndian(crc(Header(f) + f.payload), 4);
  }

  /** A frame cut short is reported as incomplete, and as nothing else. */
  lemma FrameCutShort(crc: Checksum, maximum: nat, f: Frame, k: nat, broken: bool)
    requires Legal(f, maximum) && 0 < maximum < Power(4) && 0 < k < |Encoded(crc, f)|
    ensures Decoded(crc, maximum, Encoded(crc, f)[..k], broken) == Incomplete(k)
  {
    if k >= HEADER {
      HeaderDecoded(crc, f, Encoded(crc, f)[..k]);
    }
  }

  // ----------------------------------------------------------------------- streams

  function Concatenated(crc: Checksum, frames: seq<Frame>): Bytes {
    if frames == [] then [] else Encoded(crc, frames[0]) + Concatenated(crc, frames[1..])
  }

  datatype Reading = Reading(frames: seq<Frame>, end: Outcome)

  /** Reading until something other than a frame comes. */
  function ReadAll(crc: Checksum, maximum: nat, s: Bytes, broken: bool): Reading
    decreases |s|
  {
    match Decoded(crc, maximum, s, broken)
    case Got(f, consumed) =>
      var rest := ReadAll(crc, maximum, s[consumed..], broken);
      Reading([f] + rest.frames, rest.end)
    case end => Reading([], end)
  }

  ghost predicate AllLegal(frames: seq<Frame>, maximum: nat) {
    forall k | 0 <= k < |frames| :: Legal(frames[k], maximum)
  }

  lemma OneRead(crc: Checksum, maximum: nat, f: Frame, tail: Bytes, broken: bool)
    requires Word(crc) && Legal(f, maximum) && 0 < maximum < Power(4)
    ensures var rest := ReadAll(crc, maximum, tail, broken);
            ReadAll(crc, maximum, Encoded(crc, f) + tail, broken) == Reading([f] + rest.frames, rest.end)
  {
    FrameRoundTrip(crc, maximum, f, tail, broken);
    assert (Encoded(crc, f) + tail)[|Encoded(crc, f)|..] == tail;
  }

  lemma JoinFrames(f: Frame, a: seq<Frame>, b: seq<Frame>)
    ensures [f] + (a + b) == [f] + a + b
  {}

  lemma FrameAhead(crc: Checksum, maximum: nat, f: Frame, frames: seq<Frame>, more: Bytes, tail: Bytes, broken: bool)
    requires Word(crc) && Legal(f, maximum) && 0 < maximum < Power(4)
    requires var rest := ReadAll(crc, maximum, tail, broken);
             ReadAll(crc, maximum, more + tail, broken) == Reading(frames + rest.frames, rest.end)
    ensures var rest := ReadAll(crc, maximum, tail, broken);
            ReadAll(crc, maximum, Encoded(crc, f) + more + tail, broken) ==
                Reading([f] + frames + rest.frames, rest.end)
  {
    Assoc(Encoded(crc, f), more, tail);
    OneRead(crc, maximum, f, more + tail, broken);
    JoinFrames(f, frames, ReadAll(crc, maximum, tail, broken).frames);
  }

  /** A concatenation of frames reads as those frames, and then as whatever follows. */
  lemma {:induction false} StreamRoundTrip(crc: Checksum, maximum: nat, frames: seq<Frame>, tail: Bytes, broken: bool)
    requires Word(crc) && AllLegal(frames, maximum) && 0 < maximum < Power(4)
    ensures var rest := ReadAll(crc, maximum, tail, broken);
            ReadAll(crc, maximum, Concatenated(crc, frames) + tail, broken) == Reading(frames + rest.frames, rest.end)
    decreases |frames|
  {
    if frames == [] {
      assert Concatenated(crc, frames) + tail == tail;
    } else {
      StreamRoundTrip(crc, maximum, frames[1..], tail, broken);
      FrameAhead(crc, maximum, frames[0], frames[1..], Concatenated(crc, frames[1..]), tail, broken);
      assert frames == [frames[0]] + frames[1..];
    }
  }

  /** The frames that lie completely before a cut, and the bytes of the next one that are left. */
  function Complete(crc: Checksum, frames: seq<Frame>, cut: nat): (r: (nat, nat))
    requires cut <= |Concatenated(crc, frames)|
    ensures r.0 <= |frames| && (r.0 == |frames| ==> r.1 == 0) && (r.0 < |frames| ==> r.1 < |Encoded(crc, frames[r.0])|)
  {
    if frames == [] then (0, 0)
    else
      var n := |Encoded(crc, frames[0])|;
      if cut < n then (0, cut)
      else var rest := Complete(crc, frames[1..], cut - n); (rest.0 + 1, rest.1)
  }

  /** What a cut leaves of a frame: nothing at a boundary, else a proper part of it. */
  function Partial(crc: Checksum, frames: seq<Frame>, cut: nat): Bytes
    requires cut <= |Concatenated(crc, frames)|
  {
    var c := Complete(crc, frames, cut);
    if c.1 == 0 then [] else Encoded(crc, frames[c.0])[..c.1]
  }

  lemma Longer(e: Bytes, rest: Bytes, cut: nat)
    requires |e| <= cut <= |e| + |rest|
    ensures (e + rest)[..cut] == e + rest[..cut - |e|]
  {}

  lemma ConcatenatedFront(crc: Checksum, frames: seq<Frame>, k: nat)
    requires k + 1 <= |frames|
    ensures Concatenated(crc, frames[..k + 1]) == Encoded(crc, frames[0]) + Concatenated(crc, frames[1..][..k])
  {
    assert frames[..k + 1][1..] == frames[1..][..k] && frames[..k + 1][0] == frames[0];
  }

  lemma {:induction false} CutSplits(crc: Checksum, frames: seq<Frame>, cut: nat)
    requires cut <= |Concatenated(crc, frames)|
    ensures Concatenated(crc, frames)[..cut] ==
            Concatenated(crc, frames[..Complete(crc, frames, cut).0]) + Partial(crc, frames, cut)
    decreases |frames|
  {
    if frames != [] {
      var e := Encoded(crc, frames[0]);
      var rest := Concatenated(crc, frames[1..]);
      if cut < |e| {
        assert (e + rest)[..cut] == e[..cut];
      } else {
        CutSplits(crc, frames[1..], cut - |e|);
        var k := Complete(crc, frames[1..], cut - |e|).0;
        Longer(e, rest, cut);
        ConcatenatedFront(crc, frames, k);
        Assoc(e, Concatenated(crc, frames[1..][..k]), Partial(crc, frames[1..], cut - |e|));
      }
    }
  }

  /** Cut anywhere, a stream reads as exactly the complete frames before the cut, and then
      ends cleanly on a boundary, or with an incomplete frame and no other error. A stream that
      fails there never ends cleanly. */
  lemma StreamCutAnywhere(crc: Checksum, maximum: nat, frames: seq<Frame>, cut: nat, broken: bool)
    requires Word(crc) && AllLegal(frames, maximum) && 0 < maximum < Power(4) && cut <= |Concatenated(crc, frames)|
    ensures var c := Complete(crc, frames, cut);
            ReadAll(crc, maximum, Concatenated(crc, frames)[..cut], broken) ==
            Reading(frames[..c.0], if c.1 == 0 && !broken then CleanEnd else Incomplete(c.1))
  {
    var c := Complete(crc, frames, cut);
    CutSplits(crc, frames, cut);
    var tail := Partial(crc, frames, cut);
    StreamRoundTrip(crc, maximum, frames[..c.0], tail, broken);
    if c.1 > 0 { FrameCutShort(crc, maximum, frames[c.0], c.1, broken); }
    assert frames[..c.0] + [] == frames[..c.0];
  }

  // -------------------------------------------------------------- altered complete frames

  /** The bytes begin like a frame, with a legal payload of more than the bytes that are left. */
  predicate ClaimsMore(maximum: nat, s: Bytes, left: nat)
    requires |s| >= HEADER
  {
    s[..4] == MAGIC && Number(s[4..6]) != 0 && left < Number(s[8..12]) <= maximum
  }

  /** The bytes of a complete frame, however altered, are taken for a frame that is cut short
      if and only if they still begin like a frame and claim a longer payload than is left. */
  lemma AlteredReadsIncomplete(crc: Checksum, maximum: nat, f: Frame, altered: Bytes, rest: Bytes, broken: bool)
    requires 0 < maximum && |altered| == |Encoded(crc, f)|
    ensures Decoded(crc, maximum, altered + rest, broken).Incomplete?
            <==> ClaimsMore(maximum, altered, |f.payload| + |rest|)
  {
    var s := altered + rest;
    assert s[..4] == altered[..4] && s[4..6] == altered[4..6] && s[8..12] == altered[8..12];
  }

  /** With the length left as it was the alteration is never taken for a cut. */
  lemma AlteredElsewhere(crc: Checksum, maximum: nat, f: Frame, altered: Bytes, rest: Bytes, broken: bool)
    requires Legal(f, maximum) && 0 < maximum < Power(4) && |altered| == |Encoded(crc, f)|
    requires altered[8..12] == Encoded(crc, f)[8..12]
    ensures var d := Decoded(crc, maximum, altered + rest, broken);
            d.Got? || d == BadMagic(HEADER) || d == BadVersion(HEADER) || d == BadChecksum(|altered|)
    ensures var d := Decoded(crc, maximum, altered + rest, broken);
            d.Got? ==>
              && d.consumed == |altered|
              && Number(altered[|altered| - TRAILER..]) == crc(altered[..|altered| - TRAILER])
  {
    var e, s := Encoded(crc, f), altered + rest;
    EncodedParts(crc, f);
    HeaderParts(f);
    assert e[..HEADER][8..12] == e[8..12] && s[8..12] == altered[8..12];
    NumberOfBigEndian(|f.payload|, 4);
    var n := HEADER + |f.payload|;
    assert s[..n] == altered[..n] && s[n..n + TRAILER] == altered[n..];
  }

  /** In a stream of frames, one of which is altered, reading stops at the altered frame as if
      the stream had been cut there, exactly when its length claims more than is left. */
  lemma AlteredInStream(crc: Checksum, maximum: nat, before: seq<Frame>, f: Frame, altered: Bytes, rest: Bytes)
    requires Word(crc) && AllLegal(before, maximum) && 0 < maximum < Power(4) && |altered| == |Encoded(crc, f)|
    ensures ReadAll(crc, maximum, Concatenated(crc, before) + (altered + rest), false)
              == Reading(before, Incomplete(|altered| + |rest|))
            <==> ClaimsMore(maximum, altered, |f.payload| + |rest|)
  {
    var s := altered + rest;
    var tail := ReadAll(crc, maximum, s, false);
    StreamRoundTrip(crc, maximum, before, s, false);
    AlteredReadsIncomplete(crc, maximum, f, altered, rest, false);
    if Decoded(crc, maximum, s, false).Incomplete? {
      assert before + [] == before;
    } else if before + tail.frames == before {
      assert |tail.frames| == 0;
    }
  }

  lemma RaisedClaimsMore(crc: Checksum)
    ensures ClaimsMore(1, Encoded(crc, Frame(1, 0, []))[11 := 1], 0)
  {
    var f := Frame(1, 0, []);
    var e, altered := Encoded(crc, f), Encoded(crc, f)[11 := 1];
    EncodedParts(crc, f);
    HeaderParts(f);
    assert altered[..4] == e[..HEADER][..4] && altered[4..6] == e[..HEADER][4..6];
    NumberOfBigEndian(1, 2);
    assert e[..HEADER][8..12] == BigEndian(0, 4) == [0, 0, 0, 0];
    assert altered[8..12] == [0, 0, 0, 1];
    assert Number([0, 0, 0, 1]) == 256 * Number([0, 0, 0]) + 1;
    assert Number([0, 0, 0]) == 256 * Number([0, 0]);
  }

  /** One byte of the length raised by one, and the last complete frame is taken for a cut. */
  lemma LengthRaised(crc: Checksum)
    requires Word(crc)
    ensures var e := Encoded(crc, Frame(1, 0, []));
            && ReadAll(crc, 1, e, false) == Reading([Frame(1, 0, [])], CleanEnd)
            && ReadAll(crc, 1, e[11 := 1], false) == Reading([], Incomplete(|e|))
  {
    var f := Frame(1, 0, []);
    var e := Encoded(crc, f);
    OneRead(crc, 1, f, [], false);
    assert e + [] == e;
    RaisedClaimsMore(crc);
    AlteredInStream(crc, 1, [], f, e[11 := 1], []);
    assert Concatenated(crc, []) + (e[11 := 1] + []) == e[11 := 1];
  }

  /** Where bytes taken from what a stream still holds lie in the stream. */
  lemma Taken(s: Bytes, from: nat, bytes: Bytes, rest: Bytes)
    requires from <= |s| && bytes + rest == s[from..]
    ensures from + |bytes| <= |s| && bytes == s[from..from + |bytes|] && rest == s[from + |bytes|..]
  {
    assert s[from..][..|bytes|] == bytes && s[from..][|bytes|..] == rest;
  }

  lemma TakenTogether(s: Bytes, a: Bytes, b: Bytes)
    requires |a| + |b| <= |s| && a == s[..|a|] && b == s[|a|..|a| + |b|]
    ensures a + b == s[..|a| + |b|]
  {}

  /** A decoder over the bytes that a stream still holds. */
  class Decoder {
    const crc: Checksum
    const maximum: nat
    const broken: bool
    var rest: Bytes

    constructor (crc: Checksum, maximum: nat, rest: Bytes, broken: bool)
      ensures this.crc == crc && this.maximum == maximum && this.rest == rest && this.broken == broken
    {
      this.crc, this.maximum, this.rest, this.broken := crc, maximum, rest, broken;
    }

    /** As many bytes as are wanted, or all there are. */
    method ReadFull(wanted: nat) returns (bytes: Bytes)
      modifies this`rest
      ensures |bytes| <= wanted && bytes + rest == old(rest) && (|bytes| < wanted ==> rest == [])
    {
      var n := if wanted < |rest| then wanted else |rest|;
      bytes := rest[..n];
      rest := rest[n..];
    }

    method Read() returns (r: Outcome)
      modifies this`rest
      ensures r == Decoded(crc, maximum, old(rest), broken)
      ensures var consumed := if r.CleanEnd? then 0 else r.consumed;
              consumed <= |old(rest)| && rest == old(rest)[consumed..]
      ensures r.Incomplete? ==> rest == []
    {
      if maximum == 0 { return TooLarge(0); }
      ghost var s := rest;
      var header := ReadFull(HEADER);
      if |header| < HEADER {
        assert header == s;
        return if |header| == 0 && !broken then CleanEnd else Incomplete(|header|);
      }
      Taken(s, 0, header, rest);
      assert header[..4] == s[..4] && header[4..6] == s[4..6] && header[6..8] == s[6..8] && header[8..12] == s[8..12];
      if header[..4] != MAGIC { return BadMagic(HEADER); }
      var version := Number(header[4..6]);
      if version == 0 { return BadVersion(HEADER); }
      var flags, length := Number(header[6..8]), Number(header[8..12]);
      if length > maximum { return TooLarge(HEADER); }
      var payload := ReadFull(length);
      if |payload| < length {
        return Incomplete(HEADER + |payload|);
      }
      Taken(s, HEADER, payload, rest);
      TakenTogether(s, header, payload);
      var trailer := ReadFull(TRAILER);
      if |trailer| < TRAILER {
        return Incomplete(HEADER + length + |trailer|);
      }
      Taken(s, HEADER + length, trailer, rest);
      if Number(trailer) != crc(header + payload) { return BadChecksum(HEADER + length + TRAILER); }
      r := Got(Frame(version, flags, payload), HEADER + length + TRAILER);
    }
  }

  // ----------------------------------------------------------------------- writing

  /** A destination that may take any part of what it is given, and may fail. */
  class Writer {
    const answers: nat -> (nat, bool)
    var calls: nat
    var written: Bytes

    constructor (answers: nat -> (nat, bool))
      ensures written == [] && this.answers == answers
    {
      this.answers, calls, written := answers, 0, [];
    }

    method Write(bytes: Bytes) returns (n: nat, failed: bool)
      modifies this`calls, this`written
      ensures n <= |bytes| && written == old(written) + bytes[..n]
    {
      var answer := answers(calls);
      n, failed := if answer.0 < |bytes| then answer.0 else |bytes|, answer.1;
      calls := calls + 1;
      written := written + bytes[..n];
    }
  }

  /** Writes until everything is taken; any failure, and a write that takes nothing, ends
      it. What reaches the destination is always a prefix of the frame, and success means
      the whole frame. */
  method WriteFrame(crc: Checksum, w: Writer, f: Frame, maximum: nat) returns (count: nat, ok: bool)
    modifies w
    ensures count <= |Encoded(crc, f)| && w.written == old(w.written) + Encoded(crc, f)[..count]
    ensures ok ==> f.version != 0 && |f.payload| <= maximum && count == |Encoded(crc, f)|
    ensures f.version == 0 || |f.payload| > maximum ==> count == 0 && !ok
  {
    var encoded := Marshal(crc, f, maximum);
    if encoded.Refused? { return 0, false; }
    count := 0;
    while count < |encoded.bytes|
      invariant count <= |encoded.bytes| && w.written == old(w.written) + encoded.bytes[..count]
    {
      var n, failed := w.Write(encoded.bytes[count..]);
      assert encoded.bytes[..count] + encoded.bytes[count..][..n] == encoded.bytes[..count + n];
      count := count + n;
      if failed || n == 0 { return count, false; }
    }
    ok := true;
  }
}

/** A reader that vouches for content: it reports no more than the declared size, and an
    end of file only for content whose size and digest match. The stream below it, the
    context and the digest may behave in any way. */
module ContentReader {
  import opened Idempotency
  import opened Records

  datatype End = More | Eof | Broken

  /** What the stream below answers to one call. */
  datatype Answer = Answer(bytes: Bytes, negative: bool, end: End)

  datatype Error =
    | Closed | Interrupted | BadCount | TooLong | WrongSize | WrongDigest | StreamFailed | NoProgress | CloseFailed

  datatype Reply = Data(bytes: Bytes) | EndOfFile | Fails(bytes: Bytes, error: Error)

  /** The declared content, and everything that the reader depends on. */
  datatype World = World(size: nat, expected: Bytes, digest: Bytes -> Bytes, answers: nat -> Answer,
      cancelled: nat -> bool, closeFails: bool)

  datatype St = St(calls: nat, content: Bytes, verified: bool, failure: Option<Error>)

  /** The end of the stream: the whole content is checked. */
  function Verified(w: World, s: St): St {
    if |s.content| != w.size then s.(failure := Some(WrongSize))
    else if w.digest(s.content) != w.expected then s.(failure := Some(WrongDigest))
    else s.(verified := true)
  }

  function ReadStep(w: World, s: St, room: nat): (r: (St, Reply)) {
    if s.failure.Some? then (s, Fails([], s.failure.value))
    else if s.verified then (s, EndOfFile)
    else if w.cancelled(s.calls) then (s.(failure := Some(Interrupted)), Fails([], Interrupted))
    else
      var a := w.answers(s.calls);
      var t := s.(calls := s.calls + 1);
      if a.negative || |a.bytes| > room then (t.(failure := Some(BadCount)), Fails([], BadCount))
      else if |a.bytes| > w.size - |s.content| then (t.(failure := Some(TooLong)), Fails([], TooLong))
      else
        var u := t.(content := s.content + a.bytes);
        match a.end
        case More => (u, Data(a.bytes))
        case Broken => (u.(failure := Some(StreamFailed)), Fails(a.bytes, StreamFailed))
        case Eof =>
          var v := Verified(w, u);
          (v, if v.failure.Some? then Fails(a.bytes, v.failure.value) else if a.bytes == [] then EndOfFile
              else Data(a.bytes))
  }

  predicate Sound(w: World, s: St) {
    && |s.content| <= w.size
    && (s.verified ==> |s.content| == w.size && w.digest(s.content) == w.expected && s.failure.None?)
  }

  function Carried(r: Reply): Bytes { match r case Data(b) => b case Fails(b, _) => b case EndOfFile => [] }

  /** One call: never more than was declared, an end of file only for the right content,
      every byte reported once, and a failure for good. */
  lemma ReadIsSound(w: World, s: St, room: nat)
    requires Sound(w, s)
    ensures var (t, r) := ReadStep(w, s, room);
            && Sound(w, t) && t.content == s.content + Carried(r) && |Carried(r)| <= room
            && (r.EndOfFile? ==> t.verified)
            && (s.failure.Some? ==> t == s && r == Fails([], s.failure.value))
            && (r.Fails? <==> t.failure.Some?) && (s.verified ==> t == s && r == EndOfFile)
  {}

  /** A whole run of reads with any buffers. */
  function Reads(w: World, s: St, rooms: seq<nat>): (r: (St, Bytes)) {
    if rooms == [] then (s, [])
    else
      var (t, got) := Reads(w, s, rooms[..|rooms| - 1]);
      var (u, r) := ReadStep(w, t, rooms[|rooms| - 1]);
      (u, got + Carried(r))
  }

  const FIRST := St(0, [], false, None)

  /** Whatever is read, in whatever portions, is a beginning of the content that was fed
      to the digest, and no longer than declared. */
  lemma {:induction false} ReadsAreSound(w: World, rooms: seq<nat>)
    ensures var (t, got) := Reads(w, FIRST, rooms); Sound(w, t) && got == t.content && |got| <= w.size
    decreases |rooms|
  {
    if rooms != [] {
      ReadsAreSound(w, rooms[..|rooms| - 1]);
      ReadIsSound(w, Reads(w, FIRST, rooms[..|rooms| - 1]).0, rooms[|rooms| - 1]);
    }
  }

  // ------------------------------------------------------------------- what each error means

  predicate Live(s: St) { !s.verified && s.failure.None? }

  /** What is wrong with the next call, or with the content if it is the last one. */
  predicate AtFault(w: World, s: St, room: nat, e: Error) {
    var a := w.answers(s.calls);
    match e
    case Interrupted => w.cancelled(s.calls)
    case BadCount => !w.cancelled(s.calls) && (a.negative || |a.bytes| > room)
    case TooLong => !w.cancelled(s.calls) && |s.content| + |a.bytes| > w.size
    case StreamFailed => !w.cancelled(s.calls) && a.end.Broken?
    case WrongSize => !w.cancelled(s.calls) && a.end.Eof? && |s.content| + |a.bytes| != w.size
    case WrongDigest => !w.cancelled(s.calls) && a.end.Eof? && w.digest(s.content + a.bytes) != w.expected
    case _ => false
  }

  /** A call that fails reports a fault of the call, and one without faults does not fail: it
      reports its bytes, and vouches for the content exactly when the stream has ended. */
  lemma ReadFailsIff(w: World, s: St, room: nat)
    requires Sound(w, s) && Live(s)
    ensures var (t, r) := ReadStep(w, s, room);
            match t.failure
            case Some(e) => AtFault(w, s, room, e) && r.Fails? && r.error == e
            case None =>
              && (forall e :: !AtFault(w, s, room, e))
              && t == St(s.calls + 1, s.content + w.answers(s.calls).bytes, w.answers(s.calls).end.Eof?, None)
              && (var bytes := w.answers(s.calls).bytes;
                  r == if t.verified && bytes == [] then EndOfFile else Data(bytes))
  {}

  // --------------------------------------------------------------- content that is all right

  /** The bytes of some calls in a row. */
  function Total(w: World, from: nat, n: nat): Bytes
    decreases n
  {
    if n == 0 then [] else w.answers(from).bytes + Total(w, from + 1, n - 1)
  }

  lemma {:induction false} TotalMore(w: World, from: nat, n: nat)
    ensures Total(w, from, n + 1) == Total(w, from, n) + w.answers(from + n).bytes
    decreases n
  {
    if n > 0 {
      TotalMore(w, from + 1, n - 1);
      Assoc(w.answers(from).bytes, Total(w, from + 1, n - 1), w.answers(from + n).bytes);
    }
  }

  lemma {:induction false} TotalGrows(w: World, from: nat, k: nat, n: nat)
    requires k <= n
    ensures |Total(w, from, k)| <= |Total(w, from, n)|
    decreases n - k
  {
    if k < n {
      TotalMore(w, from, k);
      TotalGrows(w, from, k + 1, n);
    }
  }

  /** A call that goes well: not cancelled, with an answer that fits, the last one with the
      end of the file. */
  predicate Call(w: World, c: nat, room: nat, last: bool) {
    && !w.cancelled(c) && !w.answers(c).negative && |w.answers(c).bytes| <= room
    && (if last then w.answers(c).end.Eof? else w.answers(c).end.More?)
  }

  /** Some calls in a row, with any buffers, deliver the stream to its end. */
  ghost predicate Delivers(w: World, from: nat, rooms: seq<nat>) {
    rooms != [] && forall k | 0 <= k < |rooms| :: Call(w, from + k, rooms[k], k == |rooms| - 1)
  }

  predicate Matches(w: World, content: Bytes) { |content| == w.size && w.digest(content) == w.expected }

  lemma CallRead(w: World, s: St, room: nat, last: bool)
    requires Sound(w, s) && Live(s) && Call(w, s.calls, room, last)
    requires |s.content + w.answers(s.calls).bytes| <= w.size
    requires last ==> Matches(w, s.content + w.answers(s.calls).bytes)
    ensures var (t, r) := ReadStep(w, s, room);
            && t == St(s.calls + 1, s.content + w.answers(s.calls).bytes, last, None)
            && Carried(r) == w.answers(s.calls).bytes
  {}

  lemma {:induction false} ReadsSome(w: World, rooms: seq<nat>, k: nat)
    requires Delivers(w, 0, rooms) && |Total(w, 0, |rooms|)| <= w.size && k < |rooms|
    ensures Reads(w, FIRST, rooms[..k]) == (St(k, Total(w, 0, k), false, None), Total(w, 0, k))
    decreases k
  {
    if k > 0 {
      ReadsSome(w, rooms, k - 1);
      assert rooms[..k][..k - 1] == rooms[..k - 1] && rooms[..k][k - 1] == rooms[k - 1];
      TotalMore(w, 0, k - 1);
      TotalGrows(w, 0, k - 1, |rooms|);
      TotalGrows(w, 0, k, |rooms|);
      assert Call(w, 0 + (k - 1), rooms[k - 1], false);
      CallRead(w, St(k - 1, Total(w, 0, k - 1), false, None), rooms[k - 1], false);
    }
  }

  /** Content of the declared size and digest, delivered in any portions that fit, is reported
      exactly, and then the end of the file, however often it is asked for. */
  lemma DeliveredIsRead(w: World, rooms: seq<nat>, room: nat)
    requires Delivers(w, 0, rooms) && Matches(w, Total(w, 0, |rooms|))
    ensures var (t, got) := Reads(w, FIRST, rooms);
            && got == Total(w, 0, |rooms|) && t == St(|rooms|, got, true, None)
            && ReadStep(w, t, room) == (t, EndOfFile)
  {
    var k := |rooms| - 1;
    ReadsSome(w, rooms, k);
    TotalMore(w, 0, k);
    TotalGrows(w, 0, k, |rooms|);
    assert Call(w, 0 + k, rooms[k], true);
    CallRead(w, St(k, Total(w, 0, k), false, None), rooms[k], true);
  }

  /** Content that does not match is never vouched for, however it is read. */
  lemma ReadsVouchOnly(w: World, rooms: seq<nat>)
    ensures Reads(w, FIRST, rooms).0.verified ==> Matches(w, Reads(w, FIRST, rooms).1)
  {
    ReadsAreSound(w, rooms);
  }

  // ---------------------------------------------------------------------------- closing

  const ROOM: nat := 32 * 1024
  const PATIENCE: nat := 100

  /** What closing makes of a reader: it reads on until the content is vouched for, a call
      fails, or too many calls in a row have brought nothing. */
  function Drained(w: World, s: St, idle: nat): (t: St)
    requires Sound(w, s) && idle < PATIENCE
    ensures Sound(w, t) && !Live(t)
    decreases w.size - |s.content|, if Live(s) then 1 else 0, PATIENCE - idle
  {
    if !Live(s) then s
    else
      ReadIsSound(w, s, ROOM);
      var (t, r) := ReadStep(w, s, ROOM);
      if !Live(t) then t
      else if r != Data([]) then Drained(w, t, 0)
      else if idle + 1 == PATIENCE then t.(failure := Some(NoProgress))
      else Drained(w, t, idle + 1)
  }

  /** Some of these calls bring bytes. */
  ghost predicate Brings(w: World, from: nat, n: nat) { exists k :: from <= k < from + n && w.answers(k).bytes != [] }

  /** Never too many calls in a row that bring nothing, some of which may have been before. */
  ghost predicate Patient(w: World, from: nat, n: nat, idle: nat)
    requires idle < PATIENCE
  {
    && (forall j | from <= j && j + PATIENCE <= from + n :: Brings(w, j, PATIENCE))
    && (PATIENCE - idle <= n ==> Brings(w, from, PATIENCE - idle))
  }

  lemma PatientAfterBytes(w: World, from: nat, n: nat, idle: nat)
    requires idle < PATIENCE && n > 0 && w.answers(from).bytes != []
    ensures Patient(w, from, n, idle) <==> Patient(w, from + 1, n - 1, 0)
  {
    assert Brings(w, from, PATIENCE) && Brings(w, from, PATIENCE - idle);
    if Patient(w, from, n, idle) {
      assert PATIENCE <= n - 1 ==> Brings(w, from + 1, PATIENCE);
    }
  }

  lemma PatientAfterNothing(w: World, from: nat, n: nat, idle: nat)
    requires idle + 1 < PATIENCE && n > 0 && w.answers(from).bytes == []
    ensures Patient(w, from, n, idle) <==> Patient(w, from + 1, n - 1, idle + 1)
  {
    assert Brings(w, from, PATIENCE - idle) <==> Brings(w, from + 1, PATIENCE - idle - 1);
    assert Brings(w, from, PATIENCE - idle) ==> Brings(w, from, PATIENCE);
  }

  lemma ImpatientAfterNothing(w: World, from: nat, n: nat)
    requires n > 0 && w.answers(from).bytes == []
    ensures !Patient(w, from, n, PATIENCE - 1)
  {
    assert !Brings(w, from, 1);
  }

  function Rooms(n: nat): (r: seq<nat>)
    ensures |r| == n && forall k | 0 <= k < n :: r[k] == ROOM
  {
    seq(n, _ => ROOM)
  }

  /** What is left of the stream can be drained into content that matches. */
  ghost predicate Drainable(w: World, s: St, idle: nat, n: nat)
    requires idle < PATIENCE
  {
    && n > 0 && Delivers(w, s.calls, Rooms(n)) && Matches(w, s.content + Total(w, s.calls, n))
    && Patient(w, s.calls, n - 1, idle)
  }

  lemma DeliversLater(w: World, from: nat, n: nat)
    requires n > 1
    ensures Delivers(w, from, Rooms(n)) <==> Call(w, from, ROOM, false) && Delivers(w, from + 1, Rooms(n - 1))
  {
    var rooms, later := Rooms(n), Rooms(n - 1);
    if Delivers(w, from, rooms) {
      assert Call(w, from + 0, rooms[0], false);
      forall k | 0 <= k < n - 1 ensures Call(w, from + 1 + k, later[k], k == n - 2) {
        assert Call(w, from + (k + 1), rooms[k + 1], k + 1 == n - 1);
      }
    }
    if Call(w, from, ROOM, false) && Delivers(w, from + 1, later) {
      forall k | 0 <= k < n ensures Call(w, from + k, rooms[k], k == n - 1) {
        if k > 0 { assert Call(w, from + 1 + (k - 1), later[k - 1], k - 1 == n - 2); }
      }
    }
  }

  lemma DeliversNow(w: World, from: nat)
    ensures Delivers(w, from, Rooms(1)) <==> Call(w, from, ROOM, true)
  {
    if Delivers(w, from, Rooms(1)) { assert Call(w, from + 0, Rooms(1)[0], true); }
  }

  function Next(w: World, s: St): St { St(s.calls + 1, s.content + w.answers(s.calls).bytes, false, None) }

  /** The patience that is left after a call. */
  function Idle(w: World, c: nat, idle: nat): nat { if w.answers(c).bytes == [] then idle + 1 else 0 }

  lemma DrainableLater(w: World, s: St, idle: nat, n: nat)
    requires idle < PATIENCE && n > 1
    ensures Drainable(w, s, idle, n) <==>
            && Call(w, s.calls, ROOM, false) && Idle(w, s.calls, idle) < PATIENCE
            && Drainable(w, Next(w, s), Idle(w, s.calls, idle), n - 1)
  {
    DeliversLater(w, s.calls, n);
    Assoc(s.content, w.answers(s.calls).bytes, Total(w, s.calls + 1, n - 1));
    if w.answers(s.calls).bytes != [] {
      PatientAfterBytes(w, s.calls, n - 1, idle);
    } else if idle + 1 < PATIENCE {
      PatientAfterNothing(w, s.calls, n - 1, idle);
    } else {
      ImpatientAfterNothing(w, s.calls, n - 1);
    }
  }

  lemma DrainableNow(w: World, s: St, idle: nat)
    requires idle < PATIENCE
    ensures Drainable(w, s, idle, 1) <==>
            Call(w, s.calls, ROOM, true) && Matches(w, s.content + w.answers(s.calls).bytes)
  {
    DeliversNow(w, s.calls);
    assert Total(w, s.calls, 1) == w.answers(s.calls).bytes + Total(w, s.calls + 1, 0) == w.answers(s.calls).bytes;
  }

  lemma {:induction false} DrainableDrains(w: World, s: St, idle: nat, n: nat)
    requires Sound(w, s) && Live(s) && idle < PATIENCE && Drainable(w, s, idle, n)
    ensures Drained(w, s, idle) == St(s.calls + n, s.content + Total(w, s.calls, n), true, None)
    decreases n
  {
    if n == 1 {
      DrainableNow(w, s, idle);
      assert Total(w, s.calls, 1) == w.answers(s.calls).bytes + Total(w, s.calls + 1, 0) == w.answers(s.calls).bytes;
      CallRead(w, s, ROOM, true);
    } else {
      DrainableLater(w, s, idle, n);
      Assoc(s.content, w.answers(s.calls).bytes, Total(w, s.calls + 1, n - 1));
      CallRead(w, s, ROOM, false);
      DrainableDrains(w, Next(w, s), Idle(w, s.calls, idle), n - 1);
    }
  }

  lemma {:induction false} DrainsDrainable(w: World, s: St, idle: nat) returns (n: nat)
    requires Sound(w, s) && Live(s) && idle < PATIENCE && Drained(w, s, idle).verified
    ensures Drainable(w, s, idle, n)
    decreases w.size - |s.content|, PATIENCE - idle
  {
    ReadIsSound(w, s, ROOM);
    ReadFailsIff(w, s, ROOM);
    if ReadStep(w, s, ROOM).0.verified {
      n := 1;
      DrainableNow(w, s, idle);
    } else {
      n := DrainsDrainable(w, Next(w, s), Idle(w, s.calls, idle));
      n := n + 1;
      DrainableLater(w, s, idle, n);
    }
  }

  /** Closing a reader that has not failed vouches for the content if and only if the stream
      delivers it to the end, with never too many empty answers in a row, and it matches. */
  lemma DrainedIff(w: World, s: St)
    requires Sound(w, s) && Live(s)
    ensures Drained(w, s, 0).verified <==> exists n :: Drainable(w, s, 0, n)
  {
    if Drained(w, s, 0).verified {
      var n := DrainsDrainable(w, s, 0);
      assert Drainable(w, s, 0, n);
    }
    if n :| Drainable(w, s, 0, n) { DrainableDrains(w, s, 0, n); }
  }

  function ClosingError(w: World, t: St): Option<Error> {
    if t.failure.Some? then t.failure else if w.closeFails then Some(CloseFailed) else None
  }

  /** Closing reports no error if and only if the stream below closes, and the content has
      been vouched for already or can be drained. */
  lemma ClosesIff(w: World, s: St)
    requires Sound(w, s)
    ensures ClosingError(w, Drained(w, s, 0)).None? <==>
            !w.closeFails && (s.verified || (s.failure.None? && exists n :: Drainable(w, s, 0, n)))
  {
    if Live(s) { DrainedIff(w, s); }
  }

  /** An error of closing is a fault of one of its calls, or the last calls have all brought
      nothing. */
  lemma {:induction false} DrainFails(w: World, s: St, idle: nat) returns (m: St)
    requires Sound(w, s) && Live(s) && idle < PATIENCE && Drained(w, s, idle).failure.Some?
    ensures Sound(w, m) && Live(m) && s.calls <= m.calls && s.content <= m.content
    ensures var e := Drained(w, s, idle).failure.value;
            || AtFault(w, m, ROOM, e)
            || (e.NoProgress? && m.calls - s.calls + idle + 1 >= PATIENCE
                && forall c | s.calls <= c <= m.calls && m.calls < c + PATIENCE :: w.answers(c).bytes == [])
    decreases w.size - |s.content|, PATIENCE - idle
  {
    ReadIsSound(w, s, ROOM);
    ReadFailsIff(w, s, ROOM);
    var t := ReadStep(w, s, ROOM).0;
    if t.failure.Some? || (w.answers(s.calls).bytes == [] && idle + 1 == PATIENCE) {
      m := s;
    } else {
      m := DrainFails(w, t, Idle(w, s.calls, idle));
    }
  }

  class Reader {
    const w: World
    var calls: nat
    var content: Bytes
    var verified: bool
    var failure: Option<Error>
    var closed: bool
    var closeError: Option<Error>

    function View(): St
      reads this
    {
      St(calls, content, verified, failure)
    }

    /** A closed reader that reports no error has verified the whole content. */
    ghost predicate Valid()
      reads this
    {
      Sound(w, View()) && (closed && closeError.None? ==> verified) && (closed ==> verified || failure.Some?)
    }

    constructor (w: World)
      ensures Valid() && this.w == w && View() == FIRST && !closed
    {
      this.w := w;
      calls, content, verified, failure := 0, [], false, None;
      closed, closeError := false, None;
    }

    method Read(room: nat) returns (r: Reply)
      requires Valid()
      modifies this
      ensures Valid() && closed == old(closed) && closeError == old(closeError)
      ensures if old(closed) then View() == old(View()) && r == Fails([], Closed)
              else (View(), r) == ReadStep(w, old(View()), room)
    {
      if closed { return Fails([], Closed); }
      r := ReadLocked(room);
    }

    method ReadLocked(room: nat) returns (r: Reply)
      requires Valid() && !closed
      modifies this
      ensures Valid() && !closed && closeError == old(closeError) && (View(), r) == ReadStep(w, old(View()), room)
    {
      ReadIsSound(w, View(), room);
      if failure.Some? { return Fails([], failure.value); }
      if verified { return EndOfFile; }
      if w.cancelled(calls) {
        failure := Some(Interrupted);
        return Fails([], Interrupted);
      }
      var a := w.answers(calls);
      calls := calls + 1;
      if a.negative || |a.bytes| > room {
        failure := Some(BadCount);
        return Fails([], BadCount);
      }
      if |a.bytes| > 0 {
        if |a.bytes| > w.size - |content| {
          failure := Some(TooLong);
          return Fails([], TooLong);
        }
        content := content + a.bytes;
      }
      assert content == old(content) + a.bytes;
      if a.end.Eof? {
        if |content| != w.size { failure := Some(WrongSize); }
        else if w.digest(content) != w.expected { failure := Some(WrongDigest); }
        else { verified := true; }
        if failure.Some? { return Fails(a.bytes, failure.value); }
        return if |a.bytes| > 0 then Data(a.bytes) else EndOfFile;
      }
      if a.end.Broken? {
        failure := Some(StreamFailed);
        return Fails(a.bytes, StreamFailed);
      }
      r := Data(a.bytes);
    }

    /** Drains what is left so that the content can be vouched for. Every round either
        takes bytes, of which only so many are allowed, or uses up patience. */
    method Close() returns (error: Option<Error>)
      requires Valid()
      modifies this
      ensures Valid() && closed && error == closeError
      ensures old(closed) ==> error == old(closeError) && View() == old(View())
      ensures !old(closed) ==> View() == Drained(w, old(View()), 0) && error == ClosingError(w, View())
      ensures error.None? ==> verified && |content| == w.size && w.digest(content) == w.expected
      ensures old(failure).Some? && !old(closed) ==> error == old(failure) && failure == old(failure)
      ensures old(content) <= content
    {
      if closed { return closeError; }
      if failure.None? && !verified {
        var noProgress := 0;
        while !verified && failure.None?
          invariant Valid() && !closed && closeError == old(closeError) && 0 <= noProgress <= PATIENCE
              && old(content) <= content
          invariant noProgress == PATIENCE ==> failure.Some?
          invariant Drained(w, old(View()), 0) == if Live(View()) then Drained(w, View(), noProgress) else View()
          decreases w.size - |content|, if verified || failure.Some? then 0 else 1, PATIENCE - noProgress
        {
          ghost var before := View();
          ReadIsSound(w, before, ROOM);
          var r := ReadLocked(ROOM);
          if r == Data([]) {
            noProgress := noProgress + 1;
            if noProgress >= PATIENCE { failure := Some(NoProgress); }
          } else {
            noProgress := 0;
          }
          if r.Fails? { break; }
        }
      }
      closed := true;
      if failure.Some? { closeError := failure; }
      else if w.closeFails { closeError := Some(CloseFailed); }
      else { closeError := None; }
      error := closeError;
    }
  }
}

/**
 The sequential media copy of `internal/gateway/media_copy.go`, and its split into a producer of
 events and a consumer of them. The split is what the buffered copy runs on two goroutines.
 */
module MediaCopy {
  import opened Wrappers

  // A reader and a writer are arbitrary scripts: nothing is assumed of the counts and errors they return.

  const BUFFER_SIZE: nat := 32768

  newtype Byte = x: int | 0 <= x < 256

  type Block = b: seq<Byte> | |b| == 32768 witness seq(32768, _ => 0)

  datatype Error =
    | EOF | UnexpectedEOF | ShortWrite | NoProgress | LengthMismatch | InvalidRead | InvalidWrite
    | CopyState | CopyInvariant | Canceled | DeadlineExceeded
    | Other(code: nat) | Wrapped(cause: Error)

  datatype Direction = NoDirection | Upstream | Downstream

  /** One read: what it returned and what the buffer holds afterwards. */
  datatype ReadResult = ReadResult(n: int, data: Block, err: Option<Error>)

  datatype WriteResult = WriteResult(written: int, err: Option<Error>)

  /** The result of the k-th read. */
  type Reader = nat -> ReadResult

  /** The result of a write, given every payload so far with the one being written last. */
  type Writer = seq<seq<Byte>> -> WriteResult

  datatype Result = Result(
    bytesRead: int, bytesWritten: int, direction: Direction, err: Option<Error>,
    primaryDirection: Direction, primaryErr: Option<Error>, invariantObserved: bool)

  /** `errors.Is`: the error itself or one it wraps. */
  predicate Is(err: Error, target: Error) {
    err == target || (err.Wrapped? && Is(err.cause, target))
  }

  function Finish(bytesRead: int, bytesWritten: int, direction: Direction, err: Option<Error>): Result {
    Result(bytesRead, bytesWritten, direction, err, direction, err, false)
  }

  // ---- the loop, one iteration at a time ------------------------------------------------------

  /** `out` is every byte delivered; `payloads` every slice passed to the writer. */
  datatype Copy =
    | Running(bytesRead: int, bytesWritten: int, emptyReads: nat, payloads: seq<seq<Byte>>, out: seq<Byte>)
    | Stopped(result: Result, out: seq<Byte>)

  predicate Valid(n: int) {
    0 <= n <= BUFFER_SIZE
  }

  predicate Exceeds(bytesRead: int, expected: int) {
    expected >= 0 && bytesRead > expected
  }

  function WriteLength(n: int, bytesRead: int, expected: int): int {
    if Exceeds(bytesRead, expected) then n - (bytesRead - expected) else n
  }

  /** How a copy that read everything well ends on `err`. */
  function ReadEnding(err: Error, bytesRead: int, expected: int): Ending {
    if err != EOF then Ending(Upstream, Some(err))
    else if expected >= 0 && bytesRead < expected then Ending(Upstream, Some(UnexpectedEOF))
    else Ending(NoDirection, None)
  }

  /** The part of an iteration after the payload has been dealt with. */
  function AfterPayload(s: Copy, r: ReadResult, expected: int): Copy
    requires s.Running?
  {
    match r.err
    case None => s
    case Some(err) =>
      var e := ReadEnding(err, s.bytesRead, expected);
      Stopped(Finish(s.bytesRead, s.bytesWritten, e.direction, e.err), s.out)
  }

  function Iterate(s: Copy, r: ReadResult, write: Writer, expected: int): Copy
    requires s.Running?
  {
    if !Valid(r.n) then
      Stopped(Finish(s.bytesRead, s.bytesWritten, Upstream, Some(InvalidRead)), s.out)
    else if r.n > 0 then
      var total := s.bytesRead + r.n;
      var length := WriteLength(r.n, total, expected);
      if length > 0 then
        var payload := r.data[..length];
        var w := write(s.payloads + [payload]);
        if !(0 <= w.written <= length) then
          Stopped(Finish(total, s.bytesWritten, Downstream, Some(InvalidWrite)), s.out)
        else
          var sent := s.bytesWritten + w.written;
          var out := s.out + payload[..w.written];
          if w.err.Some? then Stopped(Finish(total, sent, Downstream, w.err), out)
          else if w.written < length then Stopped(Finish(total, sent, Downstream, Some(ShortWrite)), out)
          else if Exceeds(total, expected) then Stopped(Finish(total, sent, Upstream, Some(LengthMismatch)), out)
          else AfterPayload(Running(total, sent, 0, s.payloads + [payload], out), r, expected)
      else Stopped(Finish(total, s.bytesWritten, Upstream, Some(LengthMismatch)), s.out)
    else if r.err.None? then
      if s.emptyReads + 1 >= 100 then
        Stopped(Finish(s.bytesRead, s.bytesWritten, Upstream, Some(NoProgress)), s.out)
      else s.(emptyReads := s.emptyReads + 1)
    else AfterPayload(s, r, expected)
  }

  /** The sequential copy after `k` reads; once stopped it stays as it is. */
  function Sequential(read: Reader, write: Writer, expected: int, k: nat): Copy {
    if k == 0 then Running(0, 0, 0, [], [])
    else
      var s := Sequential(read, write, expected, k - 1);
      if s.Stopped? then s else Iterate(s, read(k - 1), write, expected)
  }

  lemma {:induction false} SequentialStaysStopped(read: Reader, write: Writer, expected: int, j: nat, k: nat)
    requires j <= k && Sequential(read, write, expected, j).Stopped?
    ensures Sequential(read, write, expected, k) == Sequential(read, write, expected, j)
  {
    if j < k {
      SequentialStaysStopped(read, write, expected, j, k - 1);
    }
  }

  lemma SequentialStart(read: Reader, write: Writer, expected: int)
    ensures Sequential(read, write, expected, 0) == Running(0, 0, 0, [], [])
  {
  }

  lemma SequentialNext(read: Reader, write: Writer, expected: int, k: nat)
    requires Sequential(read, write, expected, k).Running?
    ensures Sequential(read, write, expected, k + 1)
         == Iterate(Sequential(read, write, expected, k), read(k), write, expected)
  {
  }

  /** The copy loop. It ends when its script does; `bound` says by which read that is. */
  method CopyMediaBody(read: Reader, write: Writer, expected: int, ghost bound: nat)
    returns (result: Result, out: seq<Byte>, count: nat)
    requires Sequential(read, write, expected, bound).Stopped?
    ensures count <= bound && Sequential(read, write, expected, count) == Stopped(result, out)
    ensures forall j :: 0 <= j < count ==> Sequential(read, write, expected, j).Running?
  {
    hide Sequential;
    SequentialStart(read, write, expected);
    var bytesRead, bytesWritten, emptyReads := 0, 0, 0;
    var payloads: seq<seq<Byte>> := [];
    out, count := [], 0;
    while true
      invariant Sequential(read, write, expected, count) == Running(bytesRead, bytesWritten, emptyReads, payloads, out)
      invariant count <= bound
      invariant forall j :: 0 <= j < count ==> Sequential(read, write, expected, j).Running?
      invariant expected >= 0 ==> bytesRead <= expected
      decreases bound - count
    {
      if count == bound {
        assert false;
      }
      SequentialNext(read, write, expected, count);
      var r := read(count);
      count := count + 1;
      if r.n < 0 || r.n > BUFFER_SIZE {
        return Finish(bytesRead, bytesWritten, Upstream, Some(InvalidRead)), out, count;
      }
      if r.n > 0 {
        emptyReads := 0;
        bytesRead := bytesRead + r.n;
        var writeLength := r.n;
        var lengthMismatch := false;
        if expected >= 0 && bytesRead > expected {
          writeLength := r.n - (bytesRead - expected);
          lengthMismatch := true;
        }
        if writeLength > 0 {
          var payload := r.data[..writeLength];
          payloads := payloads + [payload];
          var w := write(payloads);
          if w.written < 0 || w.written > writeLength {
            return Finish(bytesRead, bytesWritten, Downstream, Some(InvalidWrite)), out, count;
          }
          bytesWritten := bytesWritten + w.written;
          out := out + payload[..w.written];
          if w.err.Some? {
            return Finish(bytesRead, bytesWritten, Downstream, w.err), out, count;
          }
          if w.written < writeLength {
            return Finish(bytesRead, bytesWritten, Downstream, Some(ShortWrite)), out, count;
          }
        }
        if lengthMismatch {
          return Finish(bytesRead, bytesWritten, Upstream, Some(LengthMismatch)), out, count;
        }
      } else if r.err.None? {
        emptyReads := emptyReads + 1;
        if emptyReads >= 100 {
          return Finish(bytesRead, bytesWritten, Upstream, Some(NoProgress)), out, count;
        }
      }
      if r.err.None? {
        continue;
      }
      if r.err.value != EOF {
        return Finish(bytesRead, bytesWritten, Upstream, r.err), out, count;
      }
      if expected >= 0 && bytesRead < expected {
        return Finish(bytesRead, bytesWritten, Upstream, Some(UnexpectedEOF)), out, count;
      }
      return Finish(bytesRead, bytesWritten, NoDirection, None), out, count;
    }
  }

  // ---- producer and consumer ------------------------------------------------------------------

  datatype Ending = Ending(direction: Direction, err: Option<Error>)

  /** What travels from the producer to the consumer. */
  datatype Event = Payload(bytes: seq<Byte>) | End(ending: Ending)

  datatype Production = Production(bytesRead: int, emptyReads: nat, events: seq<Event>, done: bool)

  /** The events that one read gives rise to, and whether it is the last. */
  function Yield(r: ReadResult, total: int, emptyReads: nat, expected: int): (seq<Event>, bool) {
    if !Valid(r.n) then ([End(Ending(Upstream, Some(InvalidRead)))], true)
    else if r.n > 0 then
      var length := WriteLength(r.n, total, expected);
      var data := if length > 0 then [Payload(r.data[..length])] else [];
      if Exceeds(total, expected) then (data + [End(Ending(Upstream, Some(LengthMismatch)))], true)
      else if r.err.Some? then (data + [End(ReadEnding(r.err.value, total, expected))], true)
      else (data, false)
    else if r.err.Some? then ([End(ReadEnding(r.err.value, total, expected))], true)
    else if emptyReads + 1 >= 100 then ([End(Ending(Upstream, Some(NoProgress)))], true)
    else ([], false)
  }

  function CountRead(p: Production, n: int): int {
    if Valid(n) then p.bytesRead + n else p.bytesRead
  }

  function CountEmpty(p: Production, r: ReadResult): nat {
    if r.n == 0 && r.err.None? then p.emptyReads + 1
    else if 0 < r.n <= BUFFER_SIZE then 0
    else p.emptyReads
  }

  function Absorb(p: Production, r: ReadResult, expected: int): Production {
    var total := CountRead(p, r.n);
    var (events, done) := Yield(r, total, p.emptyReads, expected);
    Production(total, CountEmpty(p, r), p.events + events, done)
  }

  /** Everything the producer has to say after `k` reads. */
  function Produced(read: Reader, expected: int, k: nat): Production {
    if k == 0 then Production(0, 0, [], false)
    else
      var p := Produced(read, expected, k - 1);
      if p.done then p else Absorb(p, read(k - 1), expected)
  }

  datatype Consumption = Consumption(bytesWritten: int, payloads: seq<seq<Byte>>, out: seq<Byte>, end: Option<Ending>)

  /** One write and how it is judged. */
  function Deliver(c: Consumption, payload: seq<Byte>, w: WriteResult): Consumption {
    var c' := c.(payloads := c.payloads + [payload]);
    if !(0 <= w.written <= |payload|) then c'.(end := Some(Ending(Downstream, Some(InvalidWrite))))
    else
      var c'' := c'.(bytesWritten := c.bytesWritten + w.written, out := c.out + payload[..w.written]);
      if w.err.Some? then c''.(end := Some(Ending(Downstream, w.err)))
      else if w.written < |payload| then c''.(end := Some(Ending(Downstream, Some(ShortWrite))))
      else c''
  }

  function Take(c: Consumption, e: Event, write: Writer): Consumption {
    match e
    case Payload(bytes) => Deliver(c, bytes, write(c.payloads + [bytes]))
    case End(ending) => c.(end := Some(ending))
  }

  /** The consumer after `events`; it stops listening at its first ending. */
  function Consumed(write: Writer, events: seq<Event>): Consumption {
    if |events| == 0 then Consumption(0, [], [], None)
    else
      var c := Consumed(write, events[..|events| - 1]);
      if c.end.Some? then c else Take(c, events[|events| - 1], write)
  }

  lemma {:induction false} ConsumedStays(write: Writer, a: seq<Event>, b: seq<Event>)
    requires a <= b && Consumed(write, a).end.Some?
    ensures Consumed(write, b) == Consumed(write, a)
  {
    if |a| == |b| {
      assert a == b;
    } else {
      assert a <= b[..|b| - 1];
      ConsumedStays(write, a, b[..|b| - 1]);
    }
  }

  lemma ConsumedOne(write: Writer, a: seq<Event>, e: Event)
    ensures Consumed(write, a + [e])
         == if Consumed(write, a).end.Some? then Consumed(write, a) else Take(Consumed(write, a), e, write)
  {
    assert (a + [e])[..|a|] == a;
  }

  lemma ConsumedTwo(write: Writer, a: seq<Event>, e: Event, f: Event)
    ensures var c := Consumed(write, a);
      var d := if c.end.Some? then c else Take(c, e, write);
      Consumed(write, a + [e, f]) == if d.end.Some? then d else Take(d, f, write)
  {
    assert a + [e, f] == (a + [e]) + [f];
    ConsumedOne(write, a, e);
    ConsumedOne(write, a + [e], f);
  }

  /** The sequential copy is the producer followed by the consumer. */
  ghost predicate Agrees(s: Copy, p: Production, c: Consumption) {
    match s
    case Running(bytesRead, bytesWritten, emptyReads, payloads, out) =>
      && !p.done && p.bytesRead == bytesRead && p.emptyReads == emptyReads
      && c == Consumption(bytesWritten, payloads, out, None)
    case Stopped(result, out) =>
      && c.end.Some? && c.out == out
      && result == Finish(result.bytesRead, c.bytesWritten, c.end.value.direction, c.end.value.err)
      && 0 <= result.bytesRead <= p.bytesRead
      && (result.direction != Downstream ==> p.done && result.bytesRead == p.bytesRead)
  }

  lemma IterateAgrees(s: Copy, p: Production, r: ReadResult, write: Writer, expected: int)
    requires s.Running? && Agrees(s, p, Consumed(write, p.events))
    requires p.bytesRead >= 0 && (expected >= 0 ==> p.bytesRead <= expected)
    ensures Agrees(Iterate(s, r, write, expected), Absorb(p, r, expected),
                   Consumed(write, Absorb(p, r, expected).events))
  {
    var total := CountRead(p, r.n);
    var (events, done) := Yield(r, total, p.emptyReads, expected);
    hide Consumed;
    if |events| == 0 {
      assert p.events + events == p.events;
    } else if |events| == 1 {
      assert p.events + events == p.events + [events[0]];
      ConsumedOne(write, p.events, events[0]);
    } else {
      assert events == [events[0], events[1]];
      ConsumedTwo(write, p.events, events[0], events[1]);
    }
  }

  lemma StoppedAgrees(s: Copy, p: Production, r: ReadResult, write: Writer, expected: int)
    requires s.Stopped? && Agrees(s, p, Consumed(write, p.events)) && !p.done && p.bytesRead >= 0
    ensures Agrees(s, Absorb(p, r, expected), Consumed(write, Absorb(p, r, expected).events))
  {
    ConsumedStays(write, p.events, Absorb(p, r, expected).events);
  }

  function NextCopy(s: Copy, r: ReadResult, write: Writer, expected: int): Copy {
    if s.Stopped? then s else Iterate(s, r, write, expected)
  }

  function NextProduction(p: Production, r: ReadResult, expected: int): Production {
    if p.done then p else Absorb(p, r, expected)
  }

  lemma NextAgrees(s: Copy, p: Production, r: ReadResult, write: Writer, expected: int)
    requires Agrees(s, p, Consumed(write, p.events))
    requires p.bytesRead >= 0 && (!p.done && expected >= 0 ==> p.bytesRead <= expected)
    ensures var q := NextProduction(p, r, expected);
      Agrees(NextCopy(s, r, write, expected), q, Consumed(write, q.events))
  {
    hide Iterate, Absorb, Consumed;
    if s.Running? {
      IterateAgrees(s, p, r, write, expected);
    } else if !p.done {
      StoppedAgrees(s, p, r, write, expected);
    }
  }

  lemma {:induction false} SequentialIsComposition(read: Reader, write: Writer, expected: int, k: nat)
    ensures Agrees(Sequential(read, write, expected, k), Produced(read, expected, k),
                   Consumed(write, Produced(read, expected, k).events))
  {
    hide Iterate, Absorb;
    if k > 0 {
      hide Agrees;
      SequentialIsComposition(read, write, expected, k - 1);
      ProducedTallies(read, expected, k - 1);
      hide Consumed, Bytes, SourceEndings;
      NextAgrees(Sequential(read, write, expected, k - 1), Produced(read, expected, k - 1), read(k - 1), write, expected);
    }
  }

  // ---- the source's bytes ---------------------------------------------------------------------

  /** The bytes that a sequence of events carries. */
  function Bytes(events: seq<Event>): seq<Byte> {
    if |events| == 0 then []
    else
      var e := events[|events| - 1];
      Bytes(events[..|events| - 1]) + (if e.Payload? then e.bytes else [])
  }

  lemma {:induction false} BytesGrow(a: seq<Event>, b: seq<Event>)
    requires a <= b
    ensures Bytes(a) <= Bytes(b)
  {
    if |a| == |b| {
      assert a == b;
    } else {
      assert a <= b[..|b| - 1];
      BytesGrow(a, b[..|b| - 1]);
    }
  }

  /** At most one ending, and nothing after it. */
  ghost predicate EndsOnce(events: seq<Event>) {
    forall i :: 0 <= i < |events| && events[i].End? ==> i == |events| - 1
  }

  // ---- how a result is reported ---------------------------------------------------------------

  datatype Outcome =
    | Success | OutcomeCanceled | UpstreamError | DownstreamError | OutcomeShortWrite
    | OutcomeLengthMismatch | OutcomeInvalidRead | OutcomeInvalidWrite | OutcomeNoProgress | InvariantError

  predicate IsOption(err: Option<Error>, target: Error) {
    err.Some? && Is(err.value, target)
  }

  function Classify(r: Result): Outcome {
    if r.primaryDirection == Downstream then
      if IsOption(r.primaryErr, InvalidWrite) then OutcomeInvalidWrite
      else if IsOption(r.primaryErr, ShortWrite) then OutcomeShortWrite
      else DownstreamError
    else if IsOption(r.primaryErr, Canceled) || IsOption(r.primaryErr, DeadlineExceeded) then OutcomeCanceled
    else if r.primaryDirection == Upstream then
      if IsOption(r.primaryErr, LengthMismatch) then OutcomeLengthMismatch
      else if IsOption(r.primaryErr, InvalidRead) then OutcomeInvalidRead
      else if IsOption(r.primaryErr, NoProgress) then OutcomeNoProgress
      else UpstreamError
    else if r.invariantObserved then InvariantError
    else Success
  }

  /** An upstream ending has an error and a plain one has none. */
  ghost predicate SourceEnding(e: Event) {
    e.Payload? || (e.ending.direction == Upstream && e.ending.err.Some?) || e.ending == Ending(NoDirection, None)
  }

  ghost predicate SourceEndings(events: seq<Event>) {
    EndsOnce(events) && forall i :: 0 <= i < |events| ==> SourceEnding(events[i])
  }

  lemma BytesOfOne(a: seq<Event>, e: Event)
    ensures Bytes(a + [e]) == Bytes(a) + (if e.Payload? then e.bytes else [])
  {
    assert (a + [e])[..|a|] == a;
  }

  lemma BytesOfTwo(a: seq<Event>, e: Event, f: Event)
    requires f.End?
    ensures Bytes(a + [e, f]) == Bytes(a) + (if e.Payload? then e.bytes else [])
  {
    assert a + [e, f] == (a + [e]) + [f];
    BytesOfOne(a, e);
    BytesOfOne(a + [e], f);
    assert Bytes(a + [e]) + [] == Bytes(a + [e]);
  }

  /** The bytes a production carries are those it read, except when it ran past the expected length. */
  ghost predicate Tallies(p: Production, expected: int) {
    && SourceEndings(p.events)
    && (p.done <==> |p.events| > 0 && p.events[|p.events| - 1].End?)
    && p.bytesRead >= 0
    && (!p.done ==> |Bytes(p.events)| == p.bytesRead && (expected >= 0 ==> p.bytesRead <= expected))
    && (p.done && p.events[|p.events| - 1].ending.err.None? ==>
      |Bytes(p.events)| == p.bytesRead && (expected >= 0 ==> p.bytesRead == expected))
  }

  /** The shapes of what one read yields. */
  lemma YieldFacts(r: ReadResult, total: int, emptyReads: nat, expected: int)
    ensures var (events, done) := Yield(r, total, emptyReads, expected);
      && |events| <= 2 && (done <==> |events| > 0 && events[|events| - 1].End?)
      && (|events| == 0 ==> r.n == 0)
      && (|events| == 2 ==> events[0].Payload? && events[1].End?)
      && (|events| > 0 && events[0].Payload? && !Exceeds(total, expected) ==> 0 < r.n == |events[0].bytes| && Valid(r.n))
      && (|events| == 1 && events[0].Payload? ==> !Exceeds(total, expected))
      && (|events| > 0 && events[|events| - 1].End? ==>
        && SourceEnding(events[|events| - 1])
        && (events[|events| - 1].ending.err.None? ==>
          && (expected >= 0 ==> total >= expected)
          && (if |events| == 2 then !Exceeds(total, expected) else r.n == 0)))
  {
  }

  lemma AbsorbTallies(p: Production, r: ReadResult, expected: int)
    requires Tallies(p, expected) && !p.done
    ensures Tallies(Absorb(p, r, expected), expected)
  {
    var (events, done) := Yield(r, CountRead(p, r.n), p.emptyReads, expected);
    YieldFacts(r, CountRead(p, r.n), p.emptyReads, expected);
    hide Bytes, Yield;
    if |events| == 0 {
      assert p.events + events == p.events;
    } else if |events| == 1 {
      assert events == [events[0]];
      BytesOfOne(p.events, events[0]);
    } else {
      assert events == [events[0], events[1]];
      BytesOfTwo(p.events, events[0], events[1]);
    }
  }

  lemma {:induction false} ProducedTallies(read: Reader, expected: int, k: nat)
    ensures Tallies(Produced(read, expected, k), expected)
  {
    if k > 0 {
      ProducedTallies(read, expected, k - 1);
      if !Produced(read, expected, k - 1).done {
        AbsorbTallies(Produced(read, expected, k - 1), read(k - 1), expected);
      }
    }
  }

  /** Until the consumer stops it has delivered everything; a failed write leaves a prefix. */
  lemma {:induction false} ConsumedDelivers(write: Writer, events: seq<Event>)
    requires SourceEndings(events)
    ensures var c := Consumed(write, events);
      && c.bytesWritten == |c.out| && c.out <= Bytes(events)
      && (c.end.None? || c.end.value.direction != Downstream ==> c.out == Bytes(events))
      && (c.end.Some? && c.end.value.direction == Downstream ==> c.end.value.err.Some?)
      && (c.end.Some? && c.end.value.direction != Downstream ==>
        |events| > 0 && events[|events| - 1] == End(c.end.value))
  {
    if |events| > 0 {
      var init, e := events[..|events| - 1], events[|events| - 1];
      ConsumedDelivers(write, init);
      if e.End? && Consumed(write, init).end.None? {
        assert SourceEnding(e);
      }
    }
  }

  /** A sequential copy is reported as a success exactly when it delivered all that it read, as many bytes as
      were expected if a length was, and found the end of its source. */
  lemma SuccessMeansComplete(read: Reader, write: Writer, expected: int, k: nat)
    requires Sequential(read, write, expected, k).Stopped?
    ensures var s := Sequential(read, write, expected, k);
      var p := Produced(read, expected, k);
      && (Classify(s.result) == Success <==> s.result.err.None?)
      && (s.result.err.None? ==>
        && p.done && |p.events| > 0 && p.events[|p.events| - 1] == End(Ending(NoDirection, None))
        && s.out == Bytes(p.events) && s.result.bytesRead == s.result.bytesWritten == |s.out|
        && (expected >= 0 ==> |s.out| == expected))
  {
    SequentialIsComposition(read, write, expected, k);
    ProducedTallies(read, expected, k);
    ConsumedDelivers(write, Produced(read, expected, k).events);
    hide Sequential, Produced, Consumed, Bytes;
    var p := Produced(read, expected, k);
    var r := Sequential(read, write, expected, k).result;
    if r.direction != Downstream {
      assert SourceEnding(p.events[|p.events| - 1]);
    }
  }
}

/**
 What a media copy must do, said of its reads and writes alone: which read is the last, what it ends with,
 and which bytes are delivered by then. The loop is proved to do exactly this.
 */
module MediaCopyReference {
  import opened Wrappers
  import opened MediaCopy

  // ---- the source -----------------------------------------------------------------------------

  /** The bytes of one read; an impossible count gives none. */
  function Taken(r: ReadResult): seq<Byte> {
    if 0 <= r.n <= 32768 then r.data[..r.n] else []
  }

  /** What the first `k` reads gave. */
  function Source(read: Reader, k: nat): seq<Byte> {
    if k == 0 then [] else Source(read, k - 1) + Taken(read(k - 1))
  }

  /** How much of `n` bytes may be delivered: all, or as many as were expected. */
  function Cut(n: nat, expected: int): nat {
    if 0 <= expected < n then expected else n
  }

  /** What the first `k` reads gave, read by read. */
  function Slices(read: Reader, k: nat): seq<seq<Byte>> {
    if k == 0 then []
    else if Taken(read(k - 1)) == [] then Slices(read, k - 1)
    else Slices(read, k - 1) + [Taken(read(k - 1))]
  }

  // ---- when a copy ends, and how --------------------------------------------------------------

  predicate Overruns(read: Reader, expected: int, i: nat) {
    0 <= expected < |Source(read, i + 1)|
  }

  /** This read and the 99 before it gave nothing. */
  ghost predicate Starved(read: Reader, i: nat) {
    i >= 99 && forall j :: i - 99 <= j <= i ==> read(j).n == 0
  }

  /** The read does not end the source. */
  ghost predicate GoesOn(read: Reader, expected: int, i: nat) {
    0 <= read(i).n <= 32768 && !Overruns(read, expected, i) && read(i).err.None? && !Starved(read, i)
  }

  /** What the source ends with when this read ends it. */
  function EndingAt(read: Reader, expected: int, i: nat): Ending {
    if !(0 <= read(i).n <= 32768) then Ending(Upstream, Some(InvalidRead))
    else if Overruns(read, expected, i) then Ending(Upstream, Some(LengthMismatch))
    else if read(i).err.None? then Ending(Upstream, Some(NoProgress))
    else if read(i).err != Some(EOF) then Ending(Upstream, read(i).err)
    else if |Source(read, i + 1)| < expected then Ending(Upstream, Some(UnexpectedEOF))
    else Ending(NoDirection, None)
  }

  /** What this read gives to deliver. */
  function SliceAt(read: Reader, expected: int, i: nat): seq<Byte> {
    var allowed := Cut(|Source(read, i + 1)|, expected) - |Source(read, i)|;
    if 0 <= allowed <= |Taken(read(i))| then Taken(read(i))[..allowed] else []
  }

  /** A write that took everything. */
  predicate Full(w: WriteResult, length: nat) {
    w.err.None? && w.written == length
  }

  function WriteAt(read: Reader, write: Writer, expected: int, i: nat): WriteResult {
    write(Slices(read, i) + [SliceAt(read, expected, i)])
  }

  predicate WriteFails(read: Reader, write: Writer, expected: int, i: nat) {
    SliceAt(read, expected, i) != [] && !Full(WriteAt(read, write, expected, i), |SliceAt(read, expected, i)|)
  }

  /** The error of a failed write of `length` bytes. */
  function Judgement(w: WriteResult, length: nat): Error {
    if w.written < 0 || w.written > length then InvalidWrite
    else if w.err.Some? then w.err.value
    else ShortWrite
  }

  /** The part of a slice that a write took. */
  function Landed(w: WriteResult, slice: seq<Byte>): seq<Byte> {
    if 0 <= w.written <= |slice| then slice[..w.written] else []
  }

  ghost predicate Passes(read: Reader, write: Writer, expected: int, i: nat) {
    GoesOn(read, expected, i) && !WriteFails(read, write, expected, i)
  }

  /** The copy whose first read that does not pass is read `i`. */
  function StoppedAt(read: Reader, write: Writer, expected: int, i: nat): Copy {
    var slice := SliceAt(read, expected, i);
    var total := |Source(read, i + 1)|;
    if WriteFails(read, write, expected, i) then
      var w := WriteAt(read, write, expected, i);
      var out := Source(read, i) + Landed(w, slice);
      var err := Some(Judgement(w, |slice|));
      Stopped(Result(total, |out|, Downstream, err, Downstream, err, false), out)
    else
      var out := Source(read, i) + slice;
      var end := EndingAt(read, expected, i);
      Stopped(Result(total, |out|, end.direction, end.err, end.direction, end.err, false), out)
  }

  // ---- counting empty reads -------------------------------------------------------------------

  /** The last `e` of the first `k` reads gave nothing, and the one before them something. */
  ghost predicate Trailing(read: Reader, k: nat, e: nat) {
    && e <= k && (forall j :: k - e <= j < k ==> read(j).n == 0)
    && (e < k ==> read(k - e - 1).n != 0)
  }

  lemma TrailingStarves(read: Reader, k: nat, e: nat)
    requires Trailing(read, k, e) && read(k).n == 0
    ensures e + 1 >= 100 <==> Starved(read, k)
  {
    if e < 99 && e < k {
      assert read(k - e - 1).n != 0;
    }
  }

  // ---- the loop does this ---------------------------------------------------------------------

  ghost predicate RunsAs(read: Reader, expected: int, k: nat, s: Copy) {
    && s.Running? && s.bytesRead == s.bytesWritten == |Source(read, k)| && s.out == Source(read, k)
    && s.payloads == Slices(read, k) && Trailing(read, k, s.emptyReads)
    && (expected >= 0 ==> s.bytesRead <= expected)
  }

  lemma SourceNext(read: Reader, expected: int, k: nat)
    ensures Source(read, k + 1) == Source(read, k) + Taken(read(k))
    ensures Slices(read, k + 1) == if Taken(read(k)) == [] then Slices(read, k) else Slices(read, k) + [Taken(read(k))]
    ensures |Taken(read(k))| == if 0 <= read(k).n <= 32768 then read(k).n else 0
  {
  }

  /** The slice of a read, by the case of its count. */
  lemma SliceIs(read: Reader, expected: int, k: nat)
    requires expected >= 0 ==> |Source(read, k)| <= expected
    ensures var r := read(k); var total := |Source(read, k)| + r.n;
      && (0 < r.n <= 32768 && !(0 <= expected < total) ==> SliceAt(read, expected, k) == r.data[..r.n] == Taken(r))
      && (0 < r.n <= 32768 && 0 <= expected < total ==>
        SliceAt(read, expected, k) == r.data[..expected - |Source(read, k)|])
      && (!(0 < r.n <= 32768) ==> SliceAt(read, expected, k) == [])
  {
    SourceNext(read, expected, k);
  }

  lemma EmptyRead(read: Reader, write: Writer, expected: int, k: nat, s: Copy)
    requires RunsAs(read, expected, k, s) && !(0 < read(k).n <= 32768)
    ensures var s' := Iterate(s, read(k), write, expected);
      if Passes(read, write, expected, k) then RunsAs(read, expected, k + 1, s')
      else s' == StoppedAt(read, write, expected, k)
  {
    SourceNext(read, expected, k);
    SliceIs(read, expected, k);
    if read(k).n == 0 {
      TrailingStarves(read, k, s.emptyReads);
    }
    assert Source(read, k + 1) == Source(read, k);
    assert Source(read, k) + [] == Source(read, k);
    hide Source, Slices, Taken, SliceAt, Starved;
  }

  /** The part of an iteration that reads something. */
  lemma FullRead(read: Reader, write: Writer, expected: int, k: nat, s: Copy)
    requires RunsAs(read, expected, k, s) && 0 < read(k).n <= 32768
    ensures var s' := Iterate(s, read(k), write, expected);
      if Passes(read, write, expected, k) then RunsAs(read, expected, k + 1, s')
      else s' == StoppedAt(read, write, expected, k)
  {
    SourceNext(read, expected, k);
    SliceIs(read, expected, k);
    assert !Starved(read, k);
    assert Source(read, k) + [] == Source(read, k);
    hide Source, Slices, Taken, SliceAt, Starved;
  }

  lemma NextRead(read: Reader, write: Writer, expected: int, k: nat, s: Copy)
    requires RunsAs(read, expected, k, s)
    ensures s.Running?
    ensures var s' := Iterate(s, read(k), write, expected);
      if Passes(read, write, expected, k) then RunsAs(read, expected, k + 1, s')
      else s' == StoppedAt(read, write, expected, k)
  {
    hide Iterate, Passes;
    if 0 < read(k).n <= 32768 {
      FullRead(read, write, expected, k, s);
    } else {
      EmptyRead(read, write, expected, k, s);
    }
  }

  /** As long as every read passes, the copy has delivered just what it read. */
  lemma {:induction false} SequentialPasses(read: Reader, write: Writer, expected: int, k: nat)
    requires forall i :: 0 <= i < k ==> Passes(read, write, expected, i)
    ensures RunsAs(read, expected, k, Sequential(read, write, expected, k))
  {
    if k > 0 {
      SequentialPasses(read, write, expected, k - 1);
      var s := Sequential(read, write, expected, k - 1);
      hide Iterate, RunsAs, Passes;
      assert Passes(read, write, expected, k - 1);
      NextRead(read, write, expected, k - 1, s);
    }
  }

  lemma RunningIs(read: Reader, expected: int, k: nat, s: Copy)
    requires RunsAs(read, expected, k, s)
    ensures s.Running?
  {
  }

  /** The first read that does not pass stops it, for good, with the result that the reads and writes give. */
  lemma SequentialStops(read: Reader, write: Writer, expected: int, i: nat, k: nat)
    requires (forall j :: 0 <= j < i ==> Passes(read, write, expected, j)) && !Passes(read, write, expected, i) && i < k
    ensures Sequential(read, write, expected, k) == StoppedAt(read, write, expected, i)
  {
    SequentialPasses(read, write, expected, i);
    hide Passes, Iterate, RunsAs, StoppedAt;
    NextRead(read, write, expected, i, Sequential(read, write, expected, i));
    IsStopped(read, write, expected, i);
    SequentialNext(read, write, expected, i);
    SequentialStaysStopped(read, write, expected, i + 1, k);
  }

  /** A copy is running after `k` reads exactly if all of them passed. */
  lemma SequentialRunsExactly(read: Reader, write: Writer, expected: int, k: nat)
    ensures Sequential(read, write, expected, k).Running? <==> forall i :: 0 <= i < k ==> Passes(read, write, expected, i)
  {
    hide Passes, Iterate, StoppedAt;
    if forall i :: 0 <= i < k ==> Passes(read, write, expected, i) {
      SequentialPasses(read, write, expected, k);
      RunningIs(read, expected, k, Sequential(read, write, expected, k));
    } else {
      var i := FirstStop(read, write, expected, k);
      SequentialStops(read, write, expected, i, k);
      IsStopped(read, write, expected, i);
    }
  }

  lemma IsStopped(read: Reader, write: Writer, expected: int, i: nat)
    ensures StoppedAt(read, write, expected, i).Stopped?
  {
  }

  lemma {:induction false} FirstStop(read: Reader, write: Writer, expected: int, k: nat) returns (i: nat)
    requires !forall j :: 0 <= j < k ==> Passes(read, write, expected, j)
    ensures i < k && !Passes(read, write, expected, i) && forall j :: 0 <= j < i ==> Passes(read, write, expected, j)
  {
    hide Passes;
    if forall j :: 0 <= j < k - 1 ==> Passes(read, write, expected, j) {
      i := k - 1;
    } else {
      i := FirstStop(read, write, expected, k - 1);
    }
  }

  // ---- the producer does this -----------------------------------------------------------------

  ghost predicate ProducesAs(read: Reader, expected: int, k: nat, p: Production) {
    && !p.done && p.bytesRead == |Source(read, k)| && Bytes(p.events) == Source(read, k)
    && Trailing(read, k, p.emptyReads) && (expected >= 0 ==> p.bytesRead <= expected)
  }

  /** Events after a read that ended the source. */
  ghost predicate EndsAs(read: Reader, expected: int, i: nat, p: Production) {
    && p.done && p.bytesRead == |Source(read, i + 1)| && |p.events| > 0
    && p.events[|p.events| - 1] == End(EndingAt(read, expected, i))
    && Bytes(p.events) == Source(read, i) + SliceAt(read, expected, i)
  }

  function EventsOf(slice: seq<Byte>, end: Option<Ending>): seq<Event> {
    if slice == [] then (if end.None? then [] else [End(end.value)])
    else if end.None? then [Payload(slice)] else [Payload(slice), End(end.value)]
  }

  ghost function EndOf(read: Reader, expected: int, k: nat): Option<Ending> {
    if GoesOn(read, expected, k) then None else Some(EndingAt(read, expected, k))
  }

  /** What a read yields to a producer that has gone on so far. */
  lemma YieldIs(read: Reader, expected: int, k: nat, emptyReads: nat)
    requires Trailing(read, k, emptyReads) && (expected >= 0 ==> |Source(read, k)| <= expected)
    ensures Yield(read(k), |Source(read, k + 1)|, emptyReads, expected)
      == (EventsOf(SliceAt(read, expected, k), EndOf(read, expected, k)), !GoesOn(read, expected, k))
  {
    var r, end := read(k), End(EndingAt(read, expected, k));
    SourceNext(read, expected, k);
    SliceIs(read, expected, k);
    if r.n == 0 {
      TrailingStarves(read, k, emptyReads);
    } else {
      assert !Starved(read, k);
    }
    assert [] + [end] == [end];
    var data := Payload(SliceAt(read, expected, k));
    assert [data] + [end] == [data, end];
    hide Source, Taken, SliceAt, Starved;
  }

  lemma BytesOfEvents(events: seq<Event>, slice: seq<Byte>, end: Option<Ending>)
    ensures Bytes(events + EventsOf(slice, end)) == Bytes(events) + slice
  {
    hide Bytes;
    if slice == [] && end.None? {
      assert events + [] == events;
    } else if slice == [] {
      BytesOfOne(events, End(end.value));
    } else if end.None? {
      BytesOfOne(events, Payload(slice));
    } else {
      BytesOfTwo(events, Payload(slice), End(end.value));
    }
    assert Bytes(events) + [] == Bytes(events);
  }

  lemma CountsAre(read: Reader, expected: int, k: nat, p: Production)
    requires p.bytesRead == |Source(read, k)| && Trailing(read, k, p.emptyReads)
    ensures CountRead(p, read(k).n) == |Source(read, k + 1)|
    ensures GoesOn(read, expected, k) ==> Trailing(read, k + 1, CountEmpty(p, read(k)))
  {
    SourceNext(read, expected, k);
    hide Source, Taken, Overruns, Starved;
  }

  lemma NextProduced(read: Reader, expected: int, k: nat, p: Production)
    requires ProducesAs(read, expected, k, p)
    ensures var q := Absorb(p, read(k), expected);
      if GoesOn(read, expected, k) then ProducesAs(read, expected, k + 1, q) else EndsAs(read, expected, k, q)
  {
    YieldIs(read, expected, k, p.emptyReads);
    CountsAre(read, expected, k, p);
    BytesOfEvents(p.events, SliceAt(read, expected, k), EndOf(read, expected, k));
    if GoesOn(read, expected, k) {
      DeliveredBy(read, expected, k);
      GoingOnKeeps(read, expected, k);
    }
    hide Source, SliceAt, Bytes, Yield, EndingAt, GoesOn, Trailing, CountRead, CountEmpty;
  }

  lemma GoingOnKeeps(read: Reader, expected: int, k: nat)
    requires GoesOn(read, expected, k)
    ensures Cut(|Source(read, k + 1)|, expected) == |Source(read, k + 1)|
    ensures expected >= 0 ==> |Source(read, k + 1)| <= expected
  {
  }

  lemma {:induction false} ProducedGoesOn(read: Reader, expected: int, k: nat)
    requires forall i :: 0 <= i < k ==> GoesOn(read, expected, i)
    ensures ProducesAs(read, expected, k, Produced(read, expected, k))
  {
    if k > 0 {
      ProducedGoesOn(read, expected, k - 1);
      hide Absorb, GoesOn, Bytes, Source;
      assert GoesOn(read, expected, k - 1);
      NextProduced(read, expected, k - 1, Produced(read, expected, k - 1));
    } else {
      assert Bytes([]) == [];
    }
  }

  lemma {:induction false} ProducedStays(read: Reader, expected: int, j: nat, k: nat)
    requires j <= k && Produced(read, expected, j).done
    ensures Produced(read, expected, k) == Produced(read, expected, j)
  {
    if j < k {
      ProducedStays(read, expected, j, k - 1);
    }
  }

  /** The producer ends at the first read that ends the source, with that ending and those bytes. */
  lemma ProducedEnds(read: Reader, expected: int, i: nat, k: nat)
    requires (forall j :: 0 <= j < i ==> GoesOn(read, expected, j)) && !GoesOn(read, expected, i) && i < k
    ensures EndsAs(read, expected, i, Produced(read, expected, k))
  {
    hide *;
    ProducedGoesOn(read, expected, i);
    NextProduced(read, expected, i, Produced(read, expected, i));
    ProducedNext(read, expected, i);
    EndedIsDone(read, expected, i, Produced(read, expected, i + 1));
    ProducedStays(read, expected, i + 1, k);
  }

  lemma ProducedNext(read: Reader, expected: int, i: nat)
    ensures !Produced(read, expected, i).done ==>
      Produced(read, expected, i + 1) == Absorb(Produced(read, expected, i), read(i), expected)
    ensures ProducesAs(read, expected, i, Produced(read, expected, i)) ==> !Produced(read, expected, i).done
  {
    hide Absorb;
  }

  lemma EndedIsDone(read: Reader, expected: int, i: nat, p: Production)
    requires EndsAs(read, expected, i, p)
    ensures p.done
  {
  }

  // ---- which bytes are delivered --------------------------------------------------------------

  lemma {:induction false} SourceGrows(read: Reader, j: nat, k: nat)
    requires j <= k
    ensures Source(read, j) <= Source(read, k)
  {
    if j < k {
      SourceGrows(read, j, k - 1);
    }
  }

  /** The bytes up to the end of read `i`, without those past the expected length. */
  lemma DeliveredBy(read: Reader, expected: int, i: nat)
    requires expected >= 0 ==> |Source(read, i)| <= expected
    ensures var src := Source(read, i + 1);
      Source(read, i) + SliceAt(read, expected, i) == src[..Cut(|src|, expected)]
  {
    SourceNext(read, expected, i);
    SliceIs(read, expected, i);
    hide Source, SliceAt;
  }

  /** Whatever becomes of a copy, it delivers a prefix of its source that is no longer than expected; and unless a
      write failed, all that it read, up to the expected length when it read more. */
  lemma DeliversTheSource(read: Reader, write: Writer, expected: int, k: nat)
    ensures var s := Sequential(read, write, expected, k); var src := Source(read, k);
      && s.out <= src && (expected >= 0 ==> |s.out| <= expected)
      && (s.Running? ==> s.out == src && s.bytesRead == s.bytesWritten == |src|)
      && (s.Stopped? ==>
        && 0 <= s.result.bytesRead <= |src| && s.result.bytesWritten == |s.out|
        && (s.result.direction != Downstream ==> s.out == src[..Cut(s.result.bytesRead, expected)]))
  {
    hide *;
    if forall i :: 0 <= i < k ==> Passes(read, write, expected, i) {
      SequentialPasses(read, write, expected, k);
      RunningDelivers(read, expected, k, Sequential(read, write, expected, k));
    } else {
      var i := FirstStop(read, write, expected, k);
      SequentialPasses(read, write, expected, i);
      RunningDelivers(read, expected, i, Sequential(read, write, expected, i));
      SequentialStops(read, write, expected, i, k);
      StoppedDelivers(read, write, expected, i);
      SourceGrows(read, i + 1, k);
      CutOfPrefix(Source(read, i + 1), Source(read, k), expected);
    }
  }

  lemma CutOfPrefix(a: seq<Byte>, b: seq<Byte>, expected: int)
    requires a <= b
    ensures Cut(|a|, expected) <= |a| && a[..Cut(|a|, expected)] == b[..Cut(|a|, expected)]
    ensures expected >= 0 ==> Cut(|a|, expected) <= expected
  {
  }

  lemma RunningDelivers(read: Reader, expected: int, k: nat, s: Copy)
    requires RunsAs(read, expected, k, s)
    ensures s.Running? && s.out == Source(read, k) && s.bytesRead == s.bytesWritten == |Source(read, k)|
    ensures expected >= 0 ==> |Source(read, k)| <= expected
  {
  }

  lemma StoppedDelivers(read: Reader, write: Writer, expected: int, i: nat)
    requires expected >= 0 ==> |Source(read, i)| <= expected
    ensures var s := StoppedAt(read, write, expected, i); var src := Source(read, i + 1);
      && s.Stopped? && s.out <= src[..Cut(|src|, expected)] && s.result.bytesRead == |src| && s.result.bytesWritten == |s.out|
      && (s.result.direction != Downstream ==> s.out == src[..Cut(|src|, expected)])
  {
    DeliveredBy(read, expected, i);
    hide Source, SliceAt;
  }

  /** The events of the producer carry just these bytes too. */
  lemma ProducesTheSource(read: Reader, expected: int, k: nat)
    ensures var p := Produced(read, expected, k); var src := Source(read, k);
      && 0 <= p.bytesRead <= |src| && Bytes(p.events) == src[..Cut(p.bytesRead, expected)]
      && (!p.done ==> p.bytesRead == |src|)
    ensures Produced(read, expected, k).done <==> exists i :: 0 <= i < k && !GoesOn(read, expected, i)
  {
    hide *;
    if forall i :: 0 <= i < k ==> GoesOn(read, expected, i) {
      ProducedGoesOn(read, expected, k);
      ProducingCarries(read, expected, k, Produced(read, expected, k));
    } else {
      var i := FirstEnd(read, expected, k);
      ProducedGoesOn(read, expected, i);
      ProducingCarries(read, expected, i, Produced(read, expected, i));
      ProducedEnds(read, expected, i, k);
      EndedCarries(read, expected, i, Produced(read, expected, k));
      SourceGrows(read, i + 1, k);
      CutOfPrefix(Source(read, i + 1), Source(read, k), expected);
    }
  }

  lemma ProducingCarries(read: Reader, expected: int, k: nat, p: Production)
    requires ProducesAs(read, expected, k, p)
    ensures !p.done && p.bytesRead == |Source(read, k)| && Cut(|Source(read, k)|, expected) == |Source(read, k)|
    ensures Bytes(p.events) == Source(read, k) == Source(read, k)[..|Source(read, k)|]
    ensures expected >= 0 ==> |Source(read, k)| <= expected
  {
  }

  lemma EndedCarries(read: Reader, expected: int, i: nat, p: Production)
    requires EndsAs(read, expected, i, p) && (expected >= 0 ==> |Source(read, i)| <= expected)
    ensures var src := Source(read, i + 1);
      p.done && p.bytesRead == |src| && Bytes(p.events) == src[..Cut(|src|, expected)]
  {
    DeliveredBy(read, expected, i);
  }

  lemma {:induction false} FirstEnd(read: Reader, expected: int, k: nat) returns (i: nat)
    requires !forall j :: 0 <= j < k ==> GoesOn(read, expected, j)
    ensures i < k && !GoesOn(read, expected, i) && forall j :: 0 <= j < i ==> GoesOn(read, expected, j)
  {
    hide GoesOn;
    if forall j :: 0 <= j < k - 1 ==> GoesOn(read, expected, j) {
      i := k - 1;
    } else {
      i := FirstEnd(read, expected, k - 1);
    }
  }

  // ---- how it is reported ---------------------------------------------------------------------

  /** An error wrapped `n` times. */
  function WrappedIn(err: Error, n: nat): Error {
    if n == 0 then err else Wrapped(WrappedIn(err, n - 1))
  }

  /** Of a wrapped error just what is wrapped counts. */
  lemma {:induction false} IsWrapped(err: Error, n: nat, target: Error)
    requires !target.Wrapped?
    ensures Is(WrappedIn(err, n), target) <==> Is(err, target)
  {
    if n > 0 {
      IsWrapped(err, n - 1, target);
    }
  }

  /** A result without an error of either side is a success unless an invariant was seen broken. */
  lemma InvariantIsReported(r: Result)
    requires r.primaryDirection == NoDirection && r.primaryErr.None?
    ensures Classify(r) == if r.invariantObserved then InvariantError else Success
  {
  }

  /** The outcome that a copy is given, for each way to end: by its first read that does not pass. Errors of the
      reader and the writer count through any wrapping. */
  lemma EachEndingHasItsOutcome(read: Reader, write: Writer, expected: int, i: nat, k: nat)
    requires (forall j :: 0 <= j < i ==> Passes(read, write, expected, j)) && !Passes(read, write, expected, i) && i < k
    ensures Sequential(read, write, expected, k).Stopped?
    ensures var outcome := Classify(Sequential(read, write, expected, k).result);
      var r, slice := read(i), SliceAt(read, expected, i);
      var w := WriteAt(read, write, expected, i);
      outcome ==
        if slice != [] && (w.written < 0 || w.written > |slice|) then OutcomeInvalidWrite
        else if slice != [] && w.err.Some? then
          (if Is(w.err.value, InvalidWrite) then OutcomeInvalidWrite
           else if Is(w.err.value, ShortWrite) then OutcomeShortWrite
           else DownstreamError)
        else if slice != [] && w.written < |slice| then OutcomeShortWrite
        else if r.n < 0 || r.n > 32768 then OutcomeInvalidRead
        else if 0 <= expected < |Source(read, i + 1)| then OutcomeLengthMismatch
        else if r.err.None? then OutcomeNoProgress
        else if r.err == Some(EOF) then (if |Source(read, i + 1)| < expected then UpstreamError else Success)
        else if Is(r.err.value, Canceled) || Is(r.err.value, DeadlineExceeded) then OutcomeCanceled
        else if Is(r.err.value, LengthMismatch) then OutcomeLengthMismatch
        else if Is(r.err.value, InvalidRead) then OutcomeInvalidRead
        else if Is(r.err.value, NoProgress) then OutcomeNoProgress
        else UpstreamError
  {
    hide Passes, Source, SliceAt, Sequential, WriteAt;
    SequentialStops(read, write, expected, i, k);
  }
}

/**
 What the buffered copy promises its caller: without a cancellation the sequential copy, with one still a
 prefix of the source; one holder for every buffer; everything leased back; and no waiting for ever.
 */
module BufferedCopyResults {
  import opened Wrappers
  import opened MediaBufferOperations
  import opened MediaCopy
  import opened MediaCopyReference
  import opened BufferedCopyModel
  import opened BufferedCopyInvariant
  import opened BufferedCopyStory

  // ---- the result -----------------------------------------------------------------------------

  /** The buffered result is the sequential one; after a failed write it may have read further ahead. */
  ghost predicate SameOutcome(s: State, c: Copy)
    requires s.c.got.end.Some? && c.Stopped?
  {
    var r := ResultOf(s);
    && s.c.got.out == c.out
    && r == c.result.(bytesRead := r.bytesRead)
    && c.result.bytesRead <= r.bytesRead
    && (c.result.direction != Downstream ==> r.bytesRead == c.result.bytesRead)
    && Classify(r) == Classify(c.result)
  }

  lemma EndMeansDone(p: Production, expected: int, taken: seq<Event>)
    requires Tallies(p, expected) && taken <= p.events && |taken| > 0 && taken[|taken| - 1].End?
    ensures p.done && taken == p.events
  {
    assert p.events[|taken| - 1].End?;
    assert EndsOnce(p.events);
  }

  lemma PrefixEndings(p: Production, expected: int, taken: seq<Event>)
    requires Tallies(p, expected) && taken <= p.events
    ensures SourceEndings(taken)
  {
    forall i | 0 <= i < |taken|
      ensures SourceEnding(taken[i]) && (taken[i].End? ==> i == |taken| - 1)
    {
      assert taken[i] == p.events[i];
    }
  }

  /** An outcome selected before any cancellation is the one of the sequential copy. */
  lemma ReturnsSequential(e: Setup, s: State)
    requires Inv(e, s) && s.c.at.Returned? && s.c.clean
    ensures s.c.got.end.Some?
    ensures var c := Sequential(e.read, e.write, e.expected, s.p.faithful);
      c.Stopped? && SameOutcome(s, c)
  {
    hide PlacedIn, Polite, MatchedIn, Consumed, Sequential, Produced;
    var P := Produced(e.read, e.expected, s.p.faithful);
    var taken := s.q.log[..s.q.taken];
    SequentialIsComposition(e.read, e.write, e.expected, s.p.faithful);
    ConsumedStays(e.write, taken, P.events);
    ProducedTallies(e.read, e.expected, s.p.faithful);
    PrefixEndings(P, e.expected, taken);
    ConsumedDelivers(e.write, taken);
    if s.c.got.end.value.direction != Downstream {
      EndMeansDone(P, e.expected, taken);
    }
  }

  /** Without a cancellation, the copy gives what the sequential loop gives on the same scripts. */
  lemma UncancelledCopyIsSequential(e: Setup, states: seq<State>, moves: seq<Move>)
    requires Run(e, states, moves)
    requires states[|moves|].c.at.Returned? && states[|moves|].ctx.done.None?
    ensures states[|moves|].c.got.end.Some?
    ensures exists k :: Sequential(e.read, e.write, e.expected, k).Stopped?
    ensures forall k :: Sequential(e.read, e.write, e.expected, k).Stopped? ==>
      SameOutcome(states[|moves|], Sequential(e.read, e.write, e.expected, k))
  {
    var s := states[|moves|];
    RunKeepsInv(e, states, moves, |moves|);
    ReturnedIsSelected(e, s);
    ReturnsSequential(e, s);
    hide Inv, Run, SameOutcome, Sequential;
    var n := s.p.faithful;
    forall k | Sequential(e.read, e.write, e.expected, k).Stopped?
      ensures SameOutcome(s, Sequential(e.read, e.write, e.expected, k))
    {
      if k <= n {
        SequentialStaysStopped(e.read, e.write, e.expected, k, n);
      } else {
        SequentialStaysStopped(e.read, e.write, e.expected, n, k);
      }
    }
  }

  lemma ReturnedIsSelected(e: Setup, s: State)
    requires Inv(e, s) && s.c.at.Returned?
    ensures s.c.got.end.Some? && (s.ctx.done.None? ==> s.c.clean)
  {
    hide PlacedIn, Polite, MatchedIn, Consumed, Produced;
  }

  /** Cancelled or not, and whatever the writer does, only bytes of the source are delivered, in order,
      and each is counted once. */
  lemma DeliversPrefixOfSource(e: Setup, states: seq<State>, moves: seq<Move>, k: nat)
    requires Run(e, states, moves) && k < |states|
    ensures var s := states[k];
      s.c.got.out <= Bytes(Produced(e.read, e.expected, s.p.faithful).events) && s.c.got.bytesWritten == |s.c.got.out|
  {
    RunKeepsInv(e, states, moves, k);
    var s := states[k];
    hide PlacedIn, Polite, MatchedIn, Consumed, Produced, Run;
    BytesGrow(s.q.log[..s.q.taken], Produced(e.read, e.expected, s.p.faithful).events);
  }

  // ---- the counts of the result ---------------------------------------------------------------

  /** The bytes that the reads of a run gave, impossible counts aside. */
  function BytesOfReads(moves: seq<Move>): nat {
    if |moves| == 0 then 0
    else
      var m := moves[|moves| - 1];
      BytesOfReads(moves[..|moves| - 1]) + (if m.Read? && 0 <= m.r.n <= 32768 then m.r.n else 0)
  }

  lemma ReadCounts(e: Setup, s: State, m: Move, s': State)
    requires ReaderStep(e, s, m, s')
    ensures s'.p.bytesRead == s.p.bytesRead + (if m.Read? && 0 <= m.r.n <= 32768 then m.r.n else 0)
  {
    hide Contents, Released, AfterRead, Enqueue;
  }

  lemma AcquireCounts(e: Setup, s: State, m: Move, s': State)
    requires AcquireStep(e, s, m, s')
    ensures s'.p.bytesRead == s.p.bytesRead && !m.Read?
  {
    hide Asked, Accept;
  }

  lemma ConsumerCounts(e: Setup, s: State, m: Move, s': State)
    requires ServeStep(e, s, m, s') || CleanStep(e, s, m, s') || EnvironmentStep(e, s, m, s')
    ensures s'.p.bytesRead == s.p.bytesRead && !m.Read?
  {
    hide Contents, Released, Good, Deliver, Granted;
  }

  lemma StepCounts(e: Setup, s: State, m: Move, s': State)
    requires Step(e, s, m, s')
    ensures s'.p.bytesRead == s.p.bytesRead + (if m.Read? && 0 <= m.r.n <= 32768 then m.r.n else 0)
  {
    hide ReaderStep, AcquireStep, ServeStep, CleanStep, EnvironmentStep;
    if ReaderStep(e, s, m, s') {
      ReadCounts(e, s, m, s');
    } else if AcquireStep(e, s, m, s') {
      AcquireCounts(e, s, m, s');
    } else {
      ConsumerCounts(e, s, m, s');
    }
  }

  lemma {:induction false} RunCounts(e: Setup, states: seq<State>, moves: seq<Move>, k: nat)
    requires Run(e, states, moves) && k <= |moves|
    ensures states[k].p.bytesRead == BytesOfReads(moves[..k])
  {
    hide Step;
    if k > 0 {
      RunCounts(e, states, moves, k - 1);
      assert moves[..k][..k - 1] == moves[..k - 1];
      assert Step(e, states[k - 1], moves[k - 1], states[k - 1 + 1]);
      StepCounts(e, states[k - 1], moves[k - 1], states[k]);
    }
  }

  lemma KeptCounts(e: Setup, s: State)
    requires Inv(e, s)
    ensures var P := Produced(e.read, e.expected, s.p.faithful);
      P.bytesRead <= s.p.bytesRead && s.q.log[..s.q.taken] <= P.events && s.q.taken <= |s.q.log|
      && s.c.got.out <= Bytes(s.q.log[..s.q.taken]) && s.c.got.bytesWritten == |s.c.got.out|
  {
    hide PlacedIn, Polite, MatchedIn, Consumed, Produced, Bytes;
  }

  /** What any returned copy reports, cancelled or not: as read, what its reads gave; as written, what was
      delivered, which is a prefix of the source, no longer than expected and no longer than what was read. */
  lemma ReturnedCounts(e: Setup, states: seq<State>, moves: seq<Move>)
    requires Run(e, states, moves) && states[|moves|].c.at.Returned?
    ensures var s := states[|moves|];
      && s.c.got.end.Some?
      && var r := ResultOf(s);
        && r.bytesRead == BytesOfReads(moves)
        && r.bytesWritten == |s.c.got.out| <= r.bytesRead && (e.expected >= 0 ==> r.bytesWritten <= e.expected)
        && s.c.got.out <= Source(e.read, s.p.faithful)
  {
    var s := states[|moves|];
    RunKeepsInv(e, states, moves, |moves|);
    RunCounts(e, states, moves, |moves|);
    assert moves[..|moves|] == moves;
    ReturnedIsSelected(e, s);
    KeptCounts(e, s);
    ProducesTheSource(e.read, e.expected, s.p.faithful);
    BytesGrow(s.q.log[..s.q.taken], Produced(e.read, e.expected, s.p.faithful).events);
    hide Inv, Run, Source, Produced, Bytes, BytesOfReads, GoesOn;
  }

  /** An outcome selected after a cancellation is the context's error, or that of a write. */
  ghost predicate Justified(c: Consumer, done: Option<Error>) {
    c.got.end.Some? && !c.clean ==>
      done.Some? && (c.got.end.value == Ending(NoDirection, done) || c.got.end.value.direction == Downstream)
  }

  lemma ServeKeepsJustified(e: Setup, s: State, m: Move, s': State)
    requires ServeStep(e, s, m, s') && Paced(s.c.at, s.c.got.end, s.q.closing, s.ctx)
    requires Justified(s.c, s.ctx.done) && !s.broken && !s'.broken
    ensures Justified(s'.c, s'.ctx.done)
  {
    hide Contents, Released;
  }

  lemma OthersKeepJustified(e: Setup, s: State, m: Move, s': State)
    requires Step(e, s, m, s') && !ServeStep(e, s, m, s')
    ensures s'.c.got == s.c.got && s'.c.clean == s.c.clean && (s.ctx.done.Some? ==> s'.ctx.done == s.ctx.done)
  {
    hide ServeStep;
    if ReaderStep(e, s, m, s') {
      ReaderLeavesConsumer(e, s, m, s');
    } else if AcquireStep(e, s, m, s') {
      AcquireLeavesConsumer(e, s, m, s');
    } else if CleanStep(e, s, m, s') {
      CleanFrame(e, s, m, s');
    }
  }

  lemma ReaderLeavesConsumer(e: Setup, s: State, m: Move, s': State)
    requires ReaderStep(e, s, m, s')
    ensures s'.c == s.c && s'.ctx == s.ctx
  {
    hide Contents, Released, AfterRead;
  }

  lemma AcquireLeavesConsumer(e: Setup, s: State, m: Move, s': State)
    requires AcquireStep(e, s, m, s')
    ensures s'.c == s.c && s'.ctx == s.ctx
  {
    hide Asked;
  }

  lemma PacedAndWhole(e: Setup, s: State)
    requires Inv(e, s)
    ensures Paced(s.c.at, s.c.got.end, s.q.closing, s.ctx) && !s.broken
    ensures s.ctx.done.Some? ==> s.ctx.done.value == Canceled || s.ctx.done.value == DeadlineExceeded
  {
  }

  lemma {:induction false} RunIsJustified(e: Setup, states: seq<State>, moves: seq<Move>, k: nat)
    requires Run(e, states, moves) && k < |states|
    ensures Justified(states[k].c, states[k].ctx.done)
  {
    hide Step, Inv, Paced;
    if k > 0 {
      var s, m, s' := states[k - 1], moves[k - 1], states[k];
      assert Step(e, states[k - 1], moves[k - 1], states[k - 1 + 1]);
      RunIsJustified(e, states, moves, k - 1);
      RunKeepsInv(e, states, moves, k - 1);
      RunKeepsInv(e, states, moves, k);
      PacedAndWhole(e, s);
      PacedAndWhole(e, s');
      hide ServeStep;
      if ServeStep(e, s, m, s') {
        ServeKeepsJustified(e, s, m, s');
      } else {
        OthersKeepJustified(e, s, m, s');
      }
    }
  }

  /** A copy that returns without the sequential outcome was cancelled first, and is reported as canceled or,
      when a write failed after the cancellation, as that failure. */
  lemma CancelIsReported(e: Setup, states: seq<State>, moves: seq<Move>)
    requires Run(e, states, moves) && states[|moves|].c.at.Returned? && !states[|moves|].c.clean
    ensures var s := states[|moves|];
      && s.c.got.end.Some? && s.ctx.done.Some?
      && (if ResultOf(s).direction == Downstream then Classify(ResultOf(s)) in {OutcomeInvalidWrite, OutcomeShortWrite, DownstreamError}
          else ResultOf(s).err == s.ctx.done && Classify(ResultOf(s)) == OutcomeCanceled)
  {
    var s := states[|moves|];
    RunKeepsInv(e, states, moves, |moves|);
    RunIsJustified(e, states, moves, |moves|);
    ReturnedIsSelected(e, s);
    PacedAndWhole(e, s);
    hide Inv, Run, Paced;
  }

  lemma ReturnedViewIsFresh(e: Setup, s: State)
    requires Inv(e, s) && s.c.at.Returned?
    ensures s.view == FRESH_VIEW && !s.broken
  {
    hide Exclusive, AllLeased, MatchedIn, Keeps, Tells, Hears;
    assert s.view.accepted == map[] by {
      assert s.q.items == [] && HandOf(s.p.at) == None && ConsumerHand(s.c.at) == None;
    }
  }

  /** Every run that returns gives everything back and has observed no broken invariant. */
  lemma ReturnsEverything(e: Setup, states: seq<State>, moves: seq<Move>)
    requires Run(e, states, moves) && states[|moves|].c.at.Returned?
    ensures var s := states[|moves|];
      && s.view == FRESH_VIEW
      && s.c.got.end.Some? && !ResultOf(s).invariantObserved
  {
    RunKeepsInv(e, states, moves, |moves|);
    ReturnedIsSelected(e, states[|moves|]);
    ReturnedViewIsFresh(e, states[|moves|]);
  }

  // ---- one holder per buffer ------------------------------------------------------------------

  function CountItems(items: seq<Item>, x: Slot): nat {
    if |items| == 0 then 0
    else CountItems(items[..|items| - 1], x) + (if InItem(items[|items| - 1], x) then 1 else 0)
  }

  function One(b: bool): nat {
    if b then 1 else 0
  }

  /** In how many places a buffer is: the producer's hand, the queue, the consumer's hand, the ready slot. */
  function Holders(s: State, x: Slot): nat {
    CountItems(s.q.items, x) + One(InHand(HandOf(s.p.at), x)) + One(InHand(ConsumerHand(s.c.at), x))
    + One(x == Private && s.ready)
  }

  lemma {:induction false} CountExclusive(items: seq<Item>, x: Slot)
    requires forall i, j :: 0 <= i < |items| && 0 <= j < |items| && InItem(items[i], x) && InItem(items[j], x) ==> i == j
    ensures CountItems(items, x) == One(Queued(items, x))
  {
    if |items| > 0 {
      var n := |items| - 1;
      CountExclusive(items[..n], x);
      if Queued(items[..n], x) {
        var i :| 0 <= i < n && InItem(items[..n][i], x);
        assert InItem(items[i], x);
      }
      if Queued(items, x) && !InItem(items[n], x) {
        var i :| 0 <= i < |items| && InItem(items[i], x);
        assert InItem(items[..n][i], x);
      }
      if InItem(items[n], x) {
        assert Queued(items, x);
      }
    }
  }

  /** A chunk is held in exactly one place while the request owns it and in none otherwise; the base
      buffer is in one place, until the producer stops with it in hand. */
  lemma BuffersHaveOneHolder(e: Setup, states: seq<State>, moves: seq<Move>, k: nat)
    requires Run(e, states, moves) && k < |states|
    ensures var s := states[k];
      && (forall c :: Holders(s, Shared(c)) == if c in s.view.accepted then 1 else 0)
      && Holders(s, Private) <= 1
      && (Holders(s, Private) == 1 || s.p.at.Announcing? || s.p.at.Finished?)
  {
    RunKeepsInv(e, states, moves, k);
    var s := states[k];
    hide Run, Polite, Ordered, Keeps, Tells, MatchedIn, Hears, Queued;
    forall x: Slot
      ensures CountItems(s.q.items, x) == One(Queued(s.q.items, x))
    {
      CountExclusive(s.q.items, x);
    }
    forall c: nat
      ensures Holders(s, Shared(c)) == if c in s.view.accepted then 1 else 0
    {
      HeldIsAccepted(e, s, c);
    }
  }

  lemma HeldIsAccepted(e: Setup, s: State, c: nat)
    requires PlacedIn(e, s)
    ensures Queued(s.q.items, Shared(c)) || InHand(HandOf(s.p.at), Shared(c)) || InHand(ConsumerHand(s.c.at), Shared(c))
       <==> c in s.view.accepted
  {
    hide Exclusive;
    if Queued(s.q.items, Shared(c)) {
      var i :| 0 <= i < |s.q.items| && InItem(s.q.items[i], Shared(c));
      assert Leases(e.id, s.view.accepted, s.q.items[i].buffer);
    }
  }

  /** The writer is given the bytes that were published, however long they were queued. */
  lemma WriterSeesPublishedBytes(e: Setup, states: seq<State>, moves: seq<Move>, k: nat)
    requires Run(e, states, moves) && k < |states| && states[k].c.at.Writing?
    ensures var s := states[k];
      && s.c.at.item.Data? && 0 < s.q.taken <= |s.q.log|
      && s.q.log[s.q.taken - 1] == Payload(Contents(s.mem, s.c.at.item.buffer, s.c.at.item.length))
      && |Contents(s.mem, s.c.at.item.buffer, s.c.at.item.length)| == s.c.at.item.length
  {
    RunKeepsInv(e, states, moves, k);
    hide Run, PlacedIn, Polite, Keeps, Tells, Hears;
  }

  // ---- one ending -----------------------------------------------------------------------------

  /** The log has at most one ending, it is last, and the producer that published it is gone. */
  ghost predicate EndsWithProducer(log: seq<Event>, at: ProducerAt) {
    forall i :: 0 <= i < |log| && log[i].End? ==> i == |log| - 1 && at.Finished?
  }

  lemma StepKeepsEnding(e: Setup, s: State, m: Move, s': State)
    requires EndsWithProducer(s.q.log, s.p.at) && Step(e, s, m, s')
    ensures EndsWithProducer(s'.q.log, s'.p.at)
  {
    hide Contents, Deliver, Released, Asked, Granted, Mine, Step;
    if ReaderStep(e, s, m, s') {
      ReaderKeepsEnding(e, s, m, s');
    } else {
      OnlyReaderLogs(e, s, m, s');
    }
  }

  lemma ReaderKeepsEnding(e: Setup, s: State, m: Move, s': State)
    requires EndsWithProducer(s.q.log, s.p.at) && ReaderStep(e, s, m, s')
    ensures EndsWithProducer(s'.q.log, s'.p.at)
  {
    hide Contents, Released;
  }

  lemma OnlyReaderLogs(e: Setup, s: State, m: Move, s': State)
    requires Step(e, s, m, s') && !ReaderStep(e, s, m, s')
    ensures s'.q.log == s.q.log && (s.p.at.Finished? ==> s'.p.at.Finished?)
  {
    hide ReaderStep;
    if AcquireStep(e, s, m, s') {
      AcquireLogs(e, s, m, s');
    } else if ServeStep(e, s, m, s') {
      ServeFrame(e, s, m, s');
    } else if CleanStep(e, s, m, s') {
      CleanFrame(e, s, m, s');
    }
  }

  lemma AcquireLogs(e: Setup, s: State, m: Move, s': State)
    requires AcquireStep(e, s, m, s')
    ensures s'.q.log == s.q.log && !s.p.at.Finished?
  {
    hide Asked;
  }

  /** A producer publishes at most one ending and nothing after it. */
  lemma {:induction false} ProducerEndsOnce(e: Setup, states: seq<State>, moves: seq<Move>, k: nat)
    requires Run(e, states, moves) && k < |states|
    ensures EndsOnce(states[k].q.log) && EndsWithProducer(states[k].q.log, states[k].p.at)
  {
    hide Step;
    if k > 0 {
      ProducerEndsOnce(e, states, moves, k - 1);
      assert Step(e, states[k - 1], moves[k - 1], states[k - 1 + 1]);
      StepKeepsEnding(e, states[k - 1], moves[k - 1], states[k]);
    }
  }

  // ---- the queue's byte counter ---------------------------------------------------------------

  function QueuedBytes(items: seq<Item>): nat {
    if |items| == 0 then 0
    else QueuedBytes(items[..|items| - 1]) + (if items[|items| - 1].Data? then items[|items| - 1].length else 0)
  }

  function SlotsOf(items: seq<Item>): set<Slot> {
    set i | 0 <= i < |items| && items[i].Data? :: SlotOf(items[i].buffer)
  }

  lemma {:induction false} QueuedBytesBound(items: seq<Item>)
    requires Exclusive(None, items, None, false) && LengthsOk(items)
    ensures QueuedBytes(items) <= 32768 * |SlotsOf(items)|
  {
    if |items| > 0 {
      var n := |items| - 1;
      var init := items[..n];
      forall i, j, x | 0 <= i < n && 0 <= j < n && InItem(init[i], x) && InItem(init[j], x)
        ensures i == j
      {
        assert InItem(items[i], x) && InItem(items[j], x);
      }
      QueuedBytesBound(init);
      if items[n].Data? {
        SlotsGrow(items);
      } else {
        assert SlotsOf(items) == SlotsOf(init);
      }
    }
  }

  function OwnSlots(accepted: map<nat, nat>): set<Slot> {
    (set c | c in accepted :: Shared(c)) + {Private}
  }

  lemma {:induction false} SharedCount(chunks: set<nat>)
    ensures |set c | c in chunks :: Shared(c)| == |chunks|
  {
    if chunks != {} {
      var c :| c in chunks;
      SharedCount(chunks - {c});
      assert (set d | d in chunks :: Shared(d)) == (set d | d in chunks - {c} :: Shared(d)) + {Shared(c)};
    }
  }

  lemma OwnSlotsCount(accepted: map<nat, nat>)
    ensures |OwnSlots(accepted)| == |accepted| + 1
  {
    SharedCount(accepted.Keys);
    assert (set c | c in accepted.Keys :: Shared(c)) == (set c | c in accepted :: Shared(c));
    assert |accepted.Keys| == |accepted|;
  }

  lemma {:induction false} SubsetCount(a: set<Slot>, b: set<Slot>)
    requires a <= b
    ensures |a| <= |b|
  {
    if a != {} {
      var x :| x in a;
      SubsetCount(a - {x}, b - {x});
    }
  }

  /** The queue never holds more than one buffer per owned chunk and the base buffer: with the allocator's
      cap on a request, the queue's 32-bit byte counter cannot overflow. */
  lemma QueuedBytesFit(e: Setup, states: seq<State>, moves: seq<Move>, k: nat)
    requires Run(e, states, moves) && k < |states|
    ensures var s := states[k];
      && QueuedBytes(s.q.items) <= 32768 * (|s.view.accepted| + 1)
      && (32768 * |s.view.accepted| <= 536870912 ==> QueuedBytes(s.q.items) < 0x8000_0000)
  {
    RunKeepsInv(e, states, moves, k);
    var s := states[k];
    hide Run, Polite, Keeps, Tells, MatchedIn, Hears, Paced, Settled, Counted, Awake, BaseSomewhere, Covers;
    QueuedBytesBound(s.q.items);
    OwnSlotsCount(s.view.accepted);
    SlotsAreOwn(e, s);
    SubsetCount(SlotsOf(s.q.items), OwnSlots(s.view.accepted));
  }

  lemma {:induction false} ItemsBound(items: seq<Item>)
    requires Exclusive(None, items, None, false)
    requires forall i :: 0 <= i < |items| && items[i].Terminal? ==> i == |items| - 1
    ensures |items| <= |SlotsOf(items)| + 1
    ensures |items| > 0 && items[|items| - 1].Data? ==> |items| <= |SlotsOf(items)|
  {
    if |items| > 0 {
      var n := |items| - 1;
      var init := items[..n];
      forall i, j, x | 0 <= i < n && 0 <= j < n && InItem(init[i], x) && InItem(init[j], x)
        ensures i == j
      {
        assert InItem(items[i], x) && InItem(items[j], x);
      }
      ItemsBound(init);
      if items[n].Data? {
        SlotsGrow(items);
      } else {
        assert SlotsOf(items) == SlotsOf(init);
      }
    }
  }

  lemma SlotsGrow(items: seq<Item>)
    requires |items| > 0 && items[|items| - 1].Data? && Exclusive(None, items, None, false)
    ensures |SlotsOf(items)| == |SlotsOf(items[..|items| - 1])| + 1
  {
    var n := |items| - 1;
    var init, x := items[..n], SlotOf(items[n].buffer);
    assert InItem(items[n], x);
    assert x !in SlotsOf(init) by {
      if i :| 0 <= i < n && init[i].Data? && SlotOf(init[i].buffer) == x {
        assert InItem(items[i], x);
      }
    }
    assert SlotsOf(items) == SlotsOf(init) + {x};
  }

  /** An open queue is never longer than the request's chunks, the base buffer and one ending. */
  lemma QueueStaysShort(e: Setup, states: seq<State>, moves: seq<Move>, k: nat)
    requires Run(e, states, moves) && k < |states| && !states[k].q.closing
    ensures |states[k].q.items| <= |states[k].view.accepted| + 2
  {
    RunKeepsInv(e, states, moves, k);
    ProducerEndsOnce(e, states, moves, k);
    var s := states[k];
    hide Run, Polite, Keeps, Tells, Hears, Ordered, BaseSomewhere, Covers, EndsWithProducer;
    forall i | 0 <= i < |s.q.items| && s.q.items[i].Terminal?
      ensures i == |s.q.items| - 1
    {
      assert EventOf(s.mem, s.q.items[i]) == s.q.log[s.q.taken + i];
    }
    ItemsBound(s.q.items);
    OwnSlotsCount(s.view.accepted);
    SlotsAreOwn(e, s);
    SubsetCount(SlotsOf(s.q.items), OwnSlots(s.view.accepted));
  }

  lemma SlotsAreOwn(e: Setup, s: State)
    requires PlacedIn(e, s)
    ensures SlotsOf(s.q.items) <= OwnSlots(s.view.accepted)
  {
    forall x | x in SlotsOf(s.q.items)
      ensures x in OwnSlots(s.view.accepted)
    {
      var i :| 0 <= i < |s.q.items| && s.q.items[i].Data? && SlotOf(s.q.items[i].buffer) == x;
      assert Leases(e.id, s.view.accepted, s.q.items[i].buffer);
    }
  }

  // ---- no deadlock ----------------------------------------------------------------------------

  predicate ByEnvironment(m: Move) {
    m.Cancel? || m.Propagate? || m.Grant? || m.Scribble?
  }

  ghost predicate CanMove(e: Setup, s: State) {
    exists m, s' :: !ByEnvironment(m) && Step(e, s, m, s')
  }

  lemma Moves(e: Setup, s: State, m: Move, s': State)
    requires !ByEnvironment(m) && Step(e, s, m, s')
    ensures CanMove(e, s)
  {
  }

  /** A view that a release may leave behind. */
  function AfterRelease(id: nat, v: View, l: Lease): View {
    if !v.closed && l.requestID == id && l.chunk in v.accepted && v.accepted[l.chunk] == l.generation
    then v.(accepted := v.accepted - {l.chunk}) else v
  }

  lemma ReaderCanMove(e: Setup, s: State)
    requires s.p.at.Reading? || s.p.at.Publishing? || s.p.at.Dropping? || s.p.at.Announcing?
    ensures CanMove(e, s)
  {
    hide CanMove, Contents;
    match s.p.at
    case Reading(cur) =>
      var r := e.read(s.p.count);
      var s' := s.(p := ReadBy(s.p, cur, r, e.expected, Undisturbed(s.ctx)), mem := s.mem[SlotOf(cur) := r.data]);
      assert ReaderStep(e, s, Read(r), s');
      Moves(e, s, Read(r), s');
    case Publishing(cur, length, after) =>
      var item := Data(cur, length);
      var s' := At(s.(q := Enqueue(s.q, item, EventOf(s.mem, item))), if s.q.closing then Dropping(cur, Quit) else Continue(after));
      assert ReaderStep(e, s, Publish, s');
      Moves(e, s, Publish, s');
    case Dropping(cur, after) =>
      var t := At(s, Continue(after));
      var s' := if cur.Base? then t
                else t.(view := AfterRelease(e.id, s.view, cur.lease), broken := s.broken || !Good(e.id, s.view, cur.lease));
      assert ReaderStep(e, s, Drop, s');
      Moves(e, s, Drop, s');
    case Announcing(ending) =>
      var s' := At(s.(q := Enqueue(s.q, Terminal(ending), End(ending))), Finished);
      assert ReaderStep(e, s, Announce, s');
      Moves(e, s, Announce, s');
  }

  /** A view that asking may leave behind. */
  function AfterAsk(v: View): View {
    if v.closed || v.pending.Some? || v.waiting then v else v.(waiting := true)
  }

  lemma AcquirerCanMove(e: Setup, s: State)
    requires s.p.at.TryingBase? || s.p.at.CheckingContext? || s.p.at.Asking? || s.p.at.RetryingBase? || s.p.at.GivingBack?
          || s.p.at.TryingNotify? || s.p.at.Accepting? || s.p.at.Withdrawing?
          || (s.p.at.Waiting? && (s.ctx.producerDone || s.ready || s.view.notify))
    ensures CanMove(e, s)
  {
    hide CanMove;
    var got := At(s, Accepting).(view := s.view.(notify := false));
    match s.p.at
    case TryingBase =>
      Moves(e, s, TryBase, if s.ready then At(s.(ready := false), Reading(Base)) else At(s, CheckingContext));
    case CheckingContext =>
      Moves(e, s, CheckContext, At(s, if s.ctx.producerDone then Finished else Asking));
    case Asking =>
      Moves(e, s, Ask, if s.view.closed then Broken(s) else At(s, RetryingBase).(view := AfterAsk(s.view)));
    case RetryingBase =>
      Moves(e, s, RetryBase, if s.ready then At(s.(ready := false), GivingBack) else At(s, TryingNotify));
    case GivingBack =>
      Moves(e, s, GiveBack, if s.view.closed then Broken(s) else At(s, Reading(Base)).(view := Withdrawn(s.view)));
    case TryingNotify =>
      Moves(e, s, TryNotify, if s.view.notify then got else At(s, Waiting));
    case Waiting =>
      if s.ctx.producerDone {
        Moves(e, s, WaitDone, At(s, Withdrawing));
      } else if s.ready {
        Moves(e, s, WaitBase, At(s.(ready := false), GivingBack));
      } else {
        Moves(e, s, WaitNotify, got);
      }
    case Accepting =>
      Moves(e, s, AcceptGrant,
            if !s.view.closed && s.view.pending.Some? then At(s, Reading(Leased(s.view.pending.value))).(view := Accept(s.view))
            else if !s.view.closed && s.ctx.producerDone then At(s, Finished)
            else Broken(s));
    case Withdrawing =>
      Moves(e, s, Withdraw, At(s, Finished).(view := Withdrawn(s.view), broken := s.broken || s.view.closed));
  }

  ghost predicate ConsumerCanMove(e: Setup, s: State) {
    exists m, s' :: ServeStep(e, s, m, s') || CleanStep(e, s, m, s')
  }

  lemma ConsumerMoves(e: Setup, s: State, m: Move, s': State)
    requires ServeStep(e, s, m, s') || CleanStep(e, s, m, s')
    ensures ConsumerCanMove(e, s)
  {
  }

  lemma ConsumerIsNoEnvironment(e: Setup, s: State, m: Move, s': State)
    requires ServeStep(e, s, m, s') || CleanStep(e, s, m, s')
    ensures !ByEnvironment(m)
  {
    hide StepTake, StepWrite, StepReturn, StepDrain;
  }

  lemma ConsumerSuffices(e: Setup, s: State)
    requires ConsumerCanMove(e, s)
    ensures CanMove(e, s)
  {
    hide ServeStep, CleanStep, CanMove;
    var m, s' :| ServeStep(e, s, m, s') || CleanStep(e, s, m, s');
    ConsumerIsNoEnvironment(e, s, m, s');
    Moves(e, s, m, s');
  }

  lemma ServerCanMove(e: Setup, s: State)
    requires s.c.at.Next? || s.c.at.Returning? || (s.c.at.Writing? && s.c.at.item.Data?)
          || (s.c.at.Parked? && (s.q.notify || s.ctx.done.Some?))
    ensures ConsumerCanMove(e, s)
  {
    hide ConsumerCanMove, Contents, Deliver;
    match s.c.at
    case Next =>
      var s' :=
        if s.ctx.done.Some? then Select(s, Ending(NoDirection, s.ctx.done))
        else if |s.q.items| > 0 then
          match s.q.items[0]
          case Terminal(ending) => Select(s.(q := Dequeue(s.q)), ending)
          case Data(_, _) => To(s.(q := Dequeue(s.q)), Writing(s.q.items[0]))
        else if s.q.closing then Select(s, Ending(Upstream, Some(CopyState)))
        else To(s, Parked);
      ConsumerMoves(e, s, TakeNext, s');
    case Returning(b) =>
      var t := To(s, if s.c.got.end.Some? then ClosingQueue else Next);
      var s' := if b.Base? then (if s.ready then BrokenReturn(s) else t.(ready := true))
                else if Good(e.id, s.view, b.lease) then t.(view := AfterRelease(e.id, s.view, b.lease)) else BrokenReturn(s);
      ConsumerMoves(e, s, Return, s');
    case Writing(item) =>
      var payload := Contents(s.mem, item.buffer, item.length);
      var w := e.write(s.c.got.payloads + [payload]);
      var got := Deliver(s.c.got, payload, w);
      ConsumerMoves(e, s, Write(w), s.(c := Consumer(Returning(item.buffer), got, got.end.Some? && s.ctx.done.None?)));
    case Parked =>
      if s.q.notify {
        ConsumerMoves(e, s, WakeNotified, To(s.(q := s.q.(notify := false)), Next));
      } else {
        ConsumerMoves(e, s, WakeCanceled, Select(s, Ending(NoDirection, s.ctx.done)));
      }
  }

  lemma CleanerCanMove(e: Setup, s: State)
    requires s.c.at.ClosingQueue? || s.c.at.CancelingProducer? || s.c.at.CancelingRequest? || s.c.at.ClosingSource?
          || (s.c.at.Awaiting? && s.p.at.Finished?) || s.c.at.Draining?
    ensures ConsumerCanMove(e, s)
  {
    hide ConsumerCanMove;
    match s.c.at
    case ClosingQueue => ConsumerMoves(e, s, CloseQueue, To(s.(q := s.q.(closing := true, notify := true)), CancelingProducer));
    case CancelingProducer => ConsumerMoves(e, s, CancelProducer, To(s.(ctx := s.ctx.(producerDone := true)), CancelingRequest));
    case CancelingRequest =>
      ConsumerMoves(e, s, CancelRequest, To(s, ClosingSource).(view := Withdrawn(s.view), broken := s.broken || s.view.closed));
    case ClosingSource => ConsumerMoves(e, s, CloseSource, To(s.(ctx := s.ctx.(sourceClosed := true)), Awaiting));
    case Awaiting => ConsumerMoves(e, s, Await, To(s, Draining));
    case Draining =>
      if |s.q.items| == 0 {
        ConsumerMoves(e, s, Drain, To(s, Returned));
      } else {
        var t := s.(q := s.q.(items := s.q.items[1..]));
        var s' := match s.q.items[0]
          case Terminal(_) => t
          case Data(b, _) =>
            if b.Base? then (if s.ready then t.(broken := true) else t.(ready := true))
            else t.(view := AfterRelease(e.id, s.view, b.lease), broken := s.broken || !Good(e.id, s.view, b.lease));
        ConsumerMoves(e, s, Drain, s');
      }
  }

  /** A producer that waits for a buffer while the consumer sleeps on an empty queue finds the base ready. */
  lemma SleepersFindTheBase(e: Setup, s: State)
    requires PlacedIn(e, s) && s.p.at.Waiting? && s.c.at.Parked? && |s.q.items| == 0
    ensures s.ready
  {
  }

  /** A producer that ended undisturbed left its ending in the queue. */
  lemma FinishedLeavesEnding(e: Setup, s: State)
    requires Inv(e, s) && s.p.at.Finished? && s.c.at.Parked? && s.ctx.done.None?
    ensures |s.q.items| > 0
  {
    hide PlacedIn, Polite, Produced, Consumed;
    if |s.q.items| == 0 {
      var P := Produced(e.read, e.expected, s.p.faithful);
      ProducedTallies(e.read, e.expected, s.p.faithful);
      assert s.q.log + [] == s.q.log && s.q.log[..s.q.taken] == s.q.log == P.events;
      var n := |P.events| - 1;
      assert P.events[..n] + [P.events[n]] == P.events;
      ConsumedOne(e.write, P.events[..n], P.events[n]);
    }
  }

  lemma InvParts(e: Setup, s: State)
    requires Inv(e, s)
    ensures PlacedIn(e, s) && Paced(s.c.at, s.c.got.end, s.q.closing, s.ctx) && Awake(s.q, s.c.at)
  {
  }

  /** Whatever the interleaving, until the copy returns one of its goroutines can go on. */
  lemma NeverStuck(e: Setup, s: State)
    requires Inv(e, s) && !s.c.at.Returned?
    ensures CanMove(e, s)
  {
    InvParts(e, s);
    hide CanMove, ConsumerCanMove, Inv, PlacedIn;
    match s.c.at
    case Next =>
      ServerCanMove(e, s);
      ConsumerSuffices(e, s);
    case Writing(_) =>
      ServerCanMove(e, s);
      ConsumerSuffices(e, s);
    case Returning(_) =>
      ServerCanMove(e, s);
      ConsumerSuffices(e, s);
    case Parked =>
      if s.q.notify || s.ctx.done.Some? {
        ServerCanMove(e, s);
        ConsumerSuffices(e, s);
      } else {
        ParkedProducerCanMove(e, s);
      }
    case Awaiting =>
      if s.p.at.Finished? {
        CleanerCanMove(e, s);
        ConsumerSuffices(e, s);
      } else if s.p.at.Reading? || s.p.at.Publishing? || s.p.at.Dropping? || s.p.at.Announcing? {
        ReaderCanMove(e, s);
      } else {
        AcquirerCanMove(e, s);
      }
    case _ =>
      CleanerCanMove(e, s);
      ConsumerSuffices(e, s);
  }

  lemma ParkedProducerCanMove(e: Setup, s: State)
    requires Inv(e, s) && s.c.at.Parked? && !s.q.notify && s.ctx.done.None?
    ensures CanMove(e, s)
  {
    InvParts(e, s);
    hide CanMove, ConsumerCanMove, Inv, PlacedIn;
    if s.p.at.Finished? {
      FinishedLeavesEnding(e, s);
    } else if s.p.at.Reading? || s.p.at.Publishing? || s.p.at.Dropping? || s.p.at.Announcing? {
      ReaderCanMove(e, s);
    } else {
      if s.p.at.Waiting? {
        SleepersFindTheBase(e, s);
      }
      AcquirerCanMove(e, s);
    }
  }

  /** No run deadlocks, and a consumer asleep on a non-empty queue has a notification waiting. */
  lemma NoDeadlock(e: Setup, states: seq<State>, moves: seq<Move>)
    requires Run(e, states, moves)
    ensures states[|moves|].c.at.Returned? || CanMove(e, states[|moves|])
    ensures states[|moves|].c.at.Parked? && |states[|moves|].q.items| > 0 ==> states[|moves|].q.notify
  {
    RunKeepsInv(e, states, moves, |moves|);
    hide CanMove, Inv, Run;
    InvParts(e, states[|moves|]);
    if !states[|moves|].c.at.Returned? {
      NeverStuck(e, states[|moves|]);
    }
  }
}

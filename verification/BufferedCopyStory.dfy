/**
 The queue's items stay what was published, byte for byte, and the consumer stays where the sequential
 consumer would be. With `BufferedCopyInvariant` this makes the whole invariant inductive.

 Bytes stay because each buffer has one holder: the reader fills the one in its hand, foreign writes leave
 what is queued or being written alone, and a chunk goes back only once its bytes were written. The
 consumer is compared with `Consumed` on the part of the log that it has taken.
 */
module BufferedCopyStory {
  import opened Wrappers
  import opened MediaBufferOperations
  import opened MediaCopy
  import opened BufferedCopyModel
  import opened BufferedCopyInvariant

  // ---- memory ---------------------------------------------------------------------------------

  /** Memory that agrees on the slots of all held items leaves the matching alone. */
  lemma MatchesFrame(items: seq<Item>, log: seq<Event>, taken: nat, a: Memory, b: Memory)
    requires Matches(items, log, taken, a)
    requires forall i :: 0 <= i < |items| && items[i].Data? ==> SameSlot(a, b, SlotOf(items[i].buffer))
    ensures Matches(items, log, taken, b)
  {
    forall i | 0 <= i < |items|
      ensures ItemFilled(b, items[i]) && EventOf(b, items[i]) == log[taken + i]
    {
      assert ItemFilled(a, items[i]) && EventOf(a, items[i]) == log[taken + i];
    }
  }

  ghost predicate SameSlot(a: Memory, b: Memory, x: Slot) {
    (x in a <==> x in b) && (x in a ==> a[x] == b[x])
  }

  /** The reader fills a buffer that nobody else has. */
  lemma HandIsApart(e: Setup, s: State, b: Buffer, data: seq<Byte>)
    requires PlacedIn(e, s) && HandOf(s.p.at) == Some(b)
    ensures var after := s.mem[SlotOf(b) := data];
      && (forall i :: 0 <= i < |s.q.items| && s.q.items[i].Data? ==> SameSlot(s.mem, after, SlotOf(s.q.items[i].buffer)))
      && (s.c.at.Writing? && s.c.at.item.Data? ==> SameSlot(s.mem, after, SlotOf(s.c.at.item.buffer)))
  {
    hide AllLeased, Covers, BaseSomewhere;
    var x := SlotOf(b);
    assert InHand(Some(b), x);
    forall i | 0 <= i < |s.q.items| && s.q.items[i].Data?
      ensures SlotOf(s.q.items[i].buffer) != x
    {
      assert InItem(s.q.items[i], SlotOf(s.q.items[i].buffer));
      assert Queued(s.q.items, SlotOf(s.q.items[i].buffer));
    }
    if s.c.at.Writing? && s.c.at.item.Data? {
      assert InHand(ConsumerHand(s.c.at), SlotOf(s.c.at.item.buffer));
    }
  }

  lemma ReadKeepsMatched(e: Setup, s: State, r: ReadResult, s': State)
    requires PlacedIn(e, s) && MatchedIn(s) && StepRead(e, s, r, s')
    requires s.c.at.Writing? ==> s.c.at.item.Data?
    ensures MatchedIn(s')
  {
    HandIsApart(e, s, s.p.at.cur, r.data);
    hide PlacedIn, Matches;
    if !s.q.closing {
      MatchesFrame(s.q.items, s.q.log, s.q.taken, s.mem, s'.mem);
    }
  }

  lemma EnqueueMatches(q: Queue, i: Item, mem: Memory)
    requires Matches(q.items, q.log, q.taken, mem) && ItemFilled(mem, i)
    ensures Matches(q.items + [i], q.log + [EventOf(mem, i)], q.taken, mem)
  {
    var items, log := q.items + [i], q.log + [EventOf(mem, i)];
    forall k | 0 <= k < |items|
      ensures ItemFilled(mem, items[k]) && EventOf(mem, items[k]) == log[q.taken + k]
    {
      if k < |q.items| {
        assert ItemFilled(mem, q.items[k]) && EventOf(mem, q.items[k]) == q.log[q.taken + k];
      }
    }
  }

  lemma HandMatchesGrows(at: ConsumerAt, log: seq<Event>, ev: Event, taken: nat, mem: Memory)
    requires HandMatches(at, log, taken, mem)
    ensures HandMatches(at, log + [ev], taken, mem)
  {
  }

  lemma ReaderKeepsMatched(e: Setup, s: State, m: Move, s': State)
    requires PlacedIn(e, s) && MatchedIn(s) && Ordered(s) && ReaderStep(e, s, m, s')
    ensures MatchedIn(s')
  {
    hide PlacedIn, Matches, HandMatches, Settled, LengthsOk, Counted, Awake, StepRead, Released;
    match m
    case Read(r) => ReadKeepsMatched(e, s, r, s');
    case Publish =>
      if !s.q.closing {
        var item := Data(s.p.at.cur, s.p.at.length);
        EnqueueMatches(s.q, item, s.mem);
        HandMatchesGrows(s.c.at, s.q.log, EventOf(s.mem, item), s.q.taken, s.mem);
      }
    case Drop =>
    case Announce =>
      if !s.q.closing {
        var item := Terminal(s.p.at.ending);
        EnqueueMatches(s.q, item, s.mem);
        HandMatchesGrows(s.c.at, s.q.log, EventOf(s.mem, item), s.q.taken, s.mem);
      }
  }

  lemma AcquireKeepsMatched(e: Setup, s: State, m: Move, s': State)
    requires Polite(e.id, s.view, s.p.at, s.ctx.producerDone) && MatchedIn(s) && AcquireStep(e, s, m, s')
    ensures MatchedIn(s')
  {
    AcquireFrame(e, s, m, s');
    hide AcquireStep, Polite, Matches;
  }

  lemma DequeueMatches(q: Queue, mem: Memory)
    requires |q.items| > 0 && Matches(q.items, q.log, q.taken, mem)
    ensures Matches(q.items[1..], q.log, q.taken + 1, mem)
    ensures q.taken < |q.log| && ItemFilled(mem, q.items[0]) && EventOf(mem, q.items[0]) == q.log[q.taken]
  {
    forall k | 0 <= k < |q.items[1..]|
      ensures ItemFilled(mem, q.items[1..][k]) && EventOf(mem, q.items[1..][k]) == q.log[q.taken + 1 + k]
    {
      assert q.items[1..][k] == q.items[k + 1];
    }
  }

  lemma ServeKeepsMatched(e: Setup, s: State, m: Move, s': State)
    requires MatchedIn(s) && Ordered(s) && ServeStep(e, s, m, s')
    ensures MatchedIn(s')
  {
    hide Matches, ItemFilled, EventOf, Deliver, Released, Settled, LengthsOk, Counted, Awake, Contents;
    if m.TakeNext? && |s.q.items| > 0 && !s.q.closing {
      DequeueMatches(s.q, s.mem);
    }
  }

  lemma CleanKeepsMatched(e: Setup, s: State, m: Move, s': State)
    requires MatchedIn(s) && Ordered(s) && CleanStep(e, s, m, s')
    ensures MatchedIn(s')
  {
    hide Matches, Released, Settled, LengthsOk, Counted, Awake;
  }

  /** Whatever the queue, the consumer or a publishing producer holds is out of reach of the others. */
  lemma HeldIsMine(e: Setup, s: State)
    requires PlacedIn(e, s)
    ensures forall i :: 0 <= i < |s.q.items| && s.q.items[i].Data? ==> Mine(s, SlotOf(s.q.items[i].buffer))
    ensures s.c.at.Writing? && s.c.at.item.Data? ==> Mine(s, SlotOf(s.c.at.item.buffer))
    ensures s.p.at.Publishing? ==> Mine(s, SlotOf(s.p.at.cur))
  {
    hide Covers, BaseSomewhere;
    forall i | 0 <= i < |s.q.items| && s.q.items[i].Data?
      ensures Mine(s, SlotOf(s.q.items[i].buffer))
    {
      assert Leases(e.id, s.view.accepted, s.q.items[i].buffer);
      assert InItem(s.q.items[i], SlotOf(s.q.items[i].buffer));
      assert Queued(s.q.items, SlotOf(s.q.items[i].buffer));
    }
    if s.c.at.Writing? && s.c.at.item.Data? {
      assert InHand(ConsumerHand(s.c.at), SlotOf(s.c.at.item.buffer));
    }
  }

  lemma EnvironmentKeepsMatched(e: Setup, s: State, m: Move, s': State)
    requires PlacedIn(e, s) && MatchedIn(s) && Ordered(s) && EnvironmentStep(e, s, m, s')
    ensures MatchedIn(s')
  {
    hide Settled, LengthsOk, Counted, Awake, Granted;
    if m.Scribble? {
      HeldIsMine(e, s);
      hide PlacedIn, Matches, Mine;
      if !s.q.closing {
        MatchesFrame(s.q.items, s.q.log, s.q.taken, s.mem, s'.mem);
      }
    }
  }

  // ---- the consumer ---------------------------------------------------------------------------

  lemma HearsMore(write: Writer, c: Consumer, log: seq<Event>, taken: nat, done: Option<Error>, ev: Event)
    requires Hears(write, c, log, taken, done)
    ensures Hears(write, c, log + [ev], taken, done)
  {
    var n := Dealt(c.at, taken);
    assert (log + [ev])[..n] == log[..n];
    assert (log + [ev])[..taken] == log[..taken];
  }

  lemma ReaderKeepsHears(e: Setup, s: State, m: Move, s': State)
    requires Hears(e.write, s.c, s.q.log, s.q.taken, s.ctx.done) && ReaderStep(e, s, m, s')
    ensures Hears(e.write, s'.c, s'.q.log, s'.q.taken, s'.ctx.done)
  {
    hide Hears, Released, Contents;
    match m
    case Publish =>
      HearsMore(e.write, s.c, s.q.log, s.q.taken, s.ctx.done, EventOf(s.mem, Data(s.p.at.cur, s.p.at.length)));
    case Announce =>
      HearsMore(e.write, s.c, s.q.log, s.q.taken, s.ctx.done, End(s.p.at.ending));
    case _ =>
  }

  lemma LastTaken(log: seq<Event>, taken: nat)
    requires taken < |log|
    ensures log[..taken + 1] == log[..taken] + [log[taken]]
  {
  }

  lemma SelectKeepsHears(write: Writer, c: Consumer, log: seq<Event>, taken: nat, ctxErr: Option<Error>, ending: Ending)
    requires Hears(write, c, log, taken, ctxErr) && ctxErr.Some? && !c.at.Writing?
    ensures Hears(write, Consumer(ClosingQueue, c.got.(end := Some(ending)), false), log, taken, ctxErr)
  {
  }

  lemma TakeKeepsHears(e: Setup, s: State, s': State)
    requires Hears(e.write, s.c, s.q.log, s.q.taken, s.ctx.done) && MatchedIn(s) && Ordered(s)
    requires StepTake(s, s')
    ensures Hears(e.write, s'.c, s'.q.log, s'.q.taken, s'.ctx.done)
  {
    hide Consumed, Bytes, Settled, LengthsOk, Counted, Awake, Matches, ItemFilled;
    var log, taken := s.q.log, s.q.taken;
    if s.ctx.done.Some? {
      SelectKeepsHears(e.write, s.c, log, taken, s.ctx.done, Ending(NoDirection, s.ctx.done));
    } else if |s.q.items| > 0 {
      DequeueMatches(s.q, s.mem);
      LastTaken(log, taken);
      BytesOfOne(log[..taken], log[taken]);
      ConsumedOne(e.write, log[..taken], log[taken]);
      if s.q.items[0].Data? {
        TakeDataKeepsHears(e.write, s.c, log, taken, s.q.items[0]);
      } else {
        TakeEndKeepsHears(e.write, s.c, log, taken, s.q.items[0].ending);
      }
    }
  }

  lemma TakeDataKeepsHears(write: Writer, c: Consumer, log: seq<Event>, taken: nat, item: Item)
    requires Hears(write, c, log, taken, None) && !c.at.Writing? && taken < |log| && c.got.end.None?
    requires Bytes(log[..taken]) <= Bytes(log[..taken + 1])
    ensures Hears(write, c.(at := Writing(item)), log, taken + 1, None)
  {
    hide Consumed, Bytes;
  }

  lemma TakeEndKeepsHears(write: Writer, c: Consumer, log: seq<Event>, taken: nat, ending: Ending)
    requires Hears(write, c, log, taken, None) && !c.at.Writing? && taken < |log| && c.got.end.None?
    requires log[taken] == End(ending)
    ensures Hears(write, Consumer(ClosingQueue, c.got.(end := Some(ending)), true), log, taken + 1, None)
  {
    LastTaken(log, taken);
    BytesOfOne(log[..taken], log[taken]);
    ConsumedOne(write, log[..taken], log[taken]);
    hide Consumed, Bytes;
    assert Bytes(log[..taken]) + [] == Bytes(log[..taken]);
  }

  lemma DeliverFacts(c: Consumption, payload: seq<Byte>, w: WriteResult)
    requires c.bytesWritten == |c.out| && c.end.None?
    ensures var d := Deliver(c, payload, w);
      && d.bytesWritten == |d.out| && c.out <= d.out <= c.out + payload
      && (d.end.None? ==> d.out == c.out + payload)
  {
  }

  lemma WriteKeepsHears(e: Setup, s: State, w: WriteResult, s': State)
    requires Hears(e.write, s.c, s.q.log, s.q.taken, s.ctx.done) && MatchedIn(s) && Ordered(s)
    requires StepWrite(e, s, w, s')
    ensures Hears(e.write, s'.c, s'.q.log, s'.q.taken, s'.ctx.done)
  {
    hide Consumed, Bytes, Settled, LengthsOk, Counted, Awake, Matches, ItemFilled, Deliver, Contents;
    var log, taken := s.q.log, s.q.taken;
    var payload := Contents(s.mem, s.c.at.item.buffer, s.c.at.item.length);
    assert log[taken - 1] == Payload(payload);
    LastTaken(log, taken - 1);
    BytesOfOne(log[..taken - 1], log[taken - 1]);
    ConsumedOne(e.write, log[..taken - 1], log[taken - 1]);
    DeliverFacts(s.c.got, payload, w);
  }

  /** Moving on without dealing with an event changes nothing that was heard. */
  lemma StillHears(write: Writer, c: Consumer, at: ConsumerAt, log: seq<Event>, taken: nat, done: Option<Error>)
    requires Hears(write, c, log, taken, done) && !c.at.Writing? && !at.Writing?
    ensures Hears(write, c.(at := at), log, taken, done)
  {
  }

  lemma ServeKeepsHears(e: Setup, s: State, m: Move, s': State)
    requires Hears(e.write, s.c, s.q.log, s.q.taken, s.ctx.done) && MatchedIn(s) && Ordered(s) && !s'.broken
    requires ServeStep(e, s, m, s') && !s.broken
    ensures Hears(e.write, s'.c, s'.q.log, s'.q.taken, s'.ctx.done)
  {
    hide Hears, MatchedIn, Ordered, StepTake, StepWrite, Released;
    match m
    case TakeNext => TakeKeepsHears(e, s, s');
    case WakeCanceled =>
      SelectKeepsHears(e.write, s.c, s.q.log, s.q.taken, s.ctx.done, Ending(NoDirection, s.ctx.done));
    case WakeNotified => StillHears(e.write, s.c, Next, s.q.log, s.q.taken, s.ctx.done);
    case Write(w) => WriteKeepsHears(e, s, w, s');
    case Return => StillHears(e.write, s.c, s'.c.at, s.q.log, s.q.taken, s.ctx.done);
  }

  lemma CleanFrame(e: Setup, s: State, m: Move, s': State)
    requires CleanStep(e, s, m, s')
    ensures s'.c == s.c.(at := s'.c.at) && !s.c.at.Writing? && !s'.c.at.Writing? && s'.ctx.done == s.ctx.done
    ensures s'.q.log == s.q.log && s'.q.taken == s.q.taken && s'.p == s.p && s'.mem == s.mem
  {
    hide Released;
  }

  lemma CleanKeepsHears(e: Setup, s: State, m: Move, s': State)
    requires Hears(e.write, s.c, s.q.log, s.q.taken, s.ctx.done) && CleanStep(e, s, m, s')
    ensures Hears(e.write, s'.c, s'.q.log, s'.q.taken, s'.ctx.done)
  {
    CleanFrame(e, s, m, s');
    hide CleanStep, Hears;
    StillHears(e.write, s.c, s'.c.at, s.q.log, s.q.taken, s.ctx.done);
  }

  lemma EnvironmentKeepsHears(e: Setup, s: State, m: Move, s': State)
    requires Hears(e.write, s.c, s.q.log, s.q.taken, s.ctx.done) && EnvironmentStep(e, s, m, s')
    ensures Hears(e.write, s'.c, s'.q.log, s'.q.taken, s'.ctx.done)
  {
    hide Consumed, Bytes, Granted, Mine;
  }

  // ---- the whole invariant --------------------------------------------------------------------

  lemma ReaderKeepsInv(e: Setup, s: State, m: Move, s': State)
    requires Inv(e, s) && ReaderStep(e, s, m, s')
    ensures Inv(e, s')
  {
    hide ReaderStep, PlacedIn, Polite, Ordered, Keeps, Tells, MatchedIn, Hears;
    ReaderKeepsPlaced(e, s, m, s');
    ReaderKeepsPolite(e, s, m, s');
    ReaderKeepsOrdered(e, s, m, s');
    ReaderKeepsStory(e, s, m, s');
    ReaderKeepsMatched(e, s, m, s');
    ReaderKeepsHears(e, s, m, s');
  }

  lemma AcquireKeepsInv(e: Setup, s: State, m: Move, s': State)
    requires Inv(e, s) && AcquireStep(e, s, m, s')
    ensures Inv(e, s')
  {
    hide AcquireStep, PlacedIn, Polite, Ordered, Keeps, Tells, MatchedIn, Hears;
    AcquireKeepsPlaced(e, s, m, s');
    AcquireKeepsPolite(e, s, m, s');
    AcquireKeepsOrdered(e, s, m, s');
    AcquireKeepsStory(e, s, m, s');
    AcquireKeepsMatched(e, s, m, s');
    AcquireFrame(e, s, m, s');
  }

  lemma OpenRequest(e: Setup, s: State)
    requires Inv(e, s)
    ensures !s.view.closed && Paced(s.c.at, s.c.got.end, s.q.closing, s.ctx)
    ensures HandFilled(s.p.at, s.mem)
  {
  }

  lemma ServeKeepsInv(e: Setup, s: State, m: Move, s': State)
    requires Inv(e, s) && ServeStep(e, s, m, s')
    ensures Inv(e, s')
  {
    OpenRequest(e, s);
    hide ServeStep, PlacedIn, Polite, Ordered, Keeps, Tells, MatchedIn, Hears, Paced;
    ServeKeepsPlaced(e, s, m, s');
    ServeKeepsPolite(e, s, m, s');
    ServeKeepsOrdered(e, s, m, s');
    ServeKeepsStory(e, s, m, s');
    ServeKeepsMatched(e, s, m, s');
    ServeKeepsHears(e, s, m, s');
  }

  lemma CleanKeepsInv(e: Setup, s: State, m: Move, s': State)
    requires Inv(e, s) && CleanStep(e, s, m, s')
    ensures Inv(e, s')
  {
    OpenRequest(e, s);
    hide CleanStep, PlacedIn, Polite, Ordered, Keeps, Tells, MatchedIn, Hears, Paced;
    CleanKeepsPlaced(e, s, m, s');
    CleanKeepsPolite(e, s, m, s');
    CleanKeepsOrdered(e, s, m, s');
    CleanKeepsStory(e, s, m, s');
    CleanKeepsMatched(e, s, m, s');
    CleanKeepsHears(e, s, m, s');
  }

  lemma EnvironmentKeepsInv(e: Setup, s: State, m: Move, s': State)
    requires Inv(e, s) && EnvironmentStep(e, s, m, s')
    ensures Inv(e, s')
  {
    OpenRequest(e, s);
    hide EnvironmentStep, PlacedIn, Polite, Ordered, Keeps, Tells, MatchedIn, Hears, Paced, HandFilled;
    EnvironmentKeepsPlaced(e, s, m, s');
    EnvironmentKeepsPolite(e, s, m, s');
    EnvironmentKeepsOrdered(e, s, m, s');
    EnvironmentKeepsStory(e, s, m, s');
    EnvironmentKeepsMatched(e, s, m, s');
    EnvironmentKeepsHears(e, s, m, s');
  }

  lemma StepKeepsInv(e: Setup, s: State, m: Move, s': State)
    requires Inv(e, s) && Step(e, s, m, s')
    ensures Inv(e, s')
  {
    hide Inv, ReaderStep, AcquireStep, ServeStep, CleanStep, EnvironmentStep;
    if ReaderStep(e, s, m, s') {
      ReaderKeepsInv(e, s, m, s');
    } else if AcquireStep(e, s, m, s') {
      AcquireKeepsInv(e, s, m, s');
    } else if ServeStep(e, s, m, s') {
      ServeKeepsInv(e, s, m, s');
    } else if CleanStep(e, s, m, s') {
      CleanKeepsInv(e, s, m, s');
    } else {
      EnvironmentKeepsInv(e, s, m, s');
    }
  }

  /** The invariant holds in every state of every run. */
  lemma {:induction false} RunKeepsInv(e: Setup, states: seq<State>, moves: seq<Move>, k: nat)
    requires Run(e, states, moves) && k < |states|
    ensures Inv(e, states[k])
  {
    hide Inv, Step;
    if k == 0 {
      InitialInv(e, states[0].mem);
    } else {
      RunKeepsInv(e, states, moves, k - 1);
      assert Step(e, states[k - 1], moves[k - 1], states[k - 1 + 1]);
      StepKeepsInv(e, states[k - 1], moves[k - 1], states[k]);
    }
  }
}

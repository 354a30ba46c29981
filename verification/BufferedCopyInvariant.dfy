/**
 What every step of the buffered copy keeps: each buffer is in one place, the producer asks for chunks
 politely, no wakeup is lost, and the queue carries exactly the events of the sequential producer.

 A place is the producer's hand, the consumer's hand, the queue, or the ready channel of the base buffer. The
 events published and those decided on but not yet published are together those of the reads so far, for as
 long as nothing is cancelled.
 */
module BufferedCopyInvariant {
  import opened Wrappers
  import opened MediaBufferOperations
  import opened MediaCopy
  import opened BufferedCopyModel

  // ---- where the buffers are ------------------------------------------------------------------

  function HandOf(at: ProducerAt): Option<Buffer> {
    match at
    case Reading(cur) => Some(cur)
    case Publishing(cur, _, _) => Some(cur)
    case Dropping(cur, _) => Some(cur)
    case GivingBack => Some(Base)
    case _ => None
  }

  function ConsumerHand(at: ConsumerAt): Option<Buffer> {
    match at
    case Writing(item) => if item.Data? then Some(item.buffer) else None
    case Returning(cur) => Some(cur)
    case _ => None
  }

  predicate InHand(hand: Option<Buffer>, x: Slot) {
    hand.Some? && SlotOf(hand.value) == x
  }

  predicate InItem(i: Item, x: Slot) {
    i.Data? && SlotOf(i.buffer) == x
  }

  ghost predicate Queued(items: seq<Item>, x: Slot) {
    exists i :: 0 <= i < |items| && InItem(items[i], x)
  }

  /** No buffer is in two places. */
  ghost predicate Exclusive(ph: Option<Buffer>, items: seq<Item>, ch: Option<Buffer>, ready: bool) {
    && (forall i, j, x :: 0 <= i < |items| && 0 <= j < |items| && InItem(items[i], x) && InItem(items[j], x) ==> i == j)
    && (forall x :: InHand(ph, x) ==> !Queued(items, x) && !InHand(ch, x))
    && (forall x :: InHand(ch, x) ==> !Queued(items, x))
    && (ready ==> !Queued(items, Private) && !InHand(ph, Private) && !InHand(ch, Private))
  }

  ghost predicate Leases(id: nat, accepted: map<nat, nat>, b: Buffer) {
    b.Leased? ==> b.lease.requestID == id && b.lease.chunk in accepted && accepted[b.lease.chunk] == b.lease.generation
  }

  ghost predicate AllLeased(id: nat, accepted: map<nat, nat>, ph: Option<Buffer>, items: seq<Item>,
      ch: Option<Buffer>) {
    && (ph.Some? ==> Leases(id, accepted, ph.value))
    && (ch.Some? ==> Leases(id, accepted, ch.value))
    && (forall i :: 0 <= i < |items| && items[i].Data? ==> Leases(id, accepted, items[i].buffer))
  }

  /** Every accepted chunk is in one of the two hands or in the queue. */
  ghost predicate Covers(accepted: map<nat, nat>, ph: Option<Buffer>, items: seq<Item>, ch: Option<Buffer>) {
    forall c :: c in accepted ==> InHand(ph, Shared(c)) || Queued(items, Shared(c)) || InHand(ch, Shared(c))
  }

  ghost predicate Placed(id: nat, accepted: map<nat, nat>, ph: Option<Buffer>, items: seq<Item>, ch: Option<Buffer>,
      ready: bool) {
    Exclusive(ph, items, ch, ready) && AllLeased(id, accepted, ph, items, ch) && Covers(accepted, ph, items, ch)
  }

  /** The base buffer is somewhere, until the producer ends with it in hand. */
  ghost predicate BaseSomewhere(at: ProducerAt, items: seq<Item>, ch: Option<Buffer>, ready: bool) {
    ready || InHand(HandOf(at), Private) || Queued(items, Private) || InHand(ch, Private) || at.Announcing? || at.Finished?
  }

  lemma PublishMoves(id: nat, accepted: map<nat, nat>, b: Buffer, items: seq<Item>, ch: Option<Buffer>, ready: bool,
      length: nat)
    requires Placed(id, accepted, Some(b), items, ch, ready)
    ensures Placed(id, accepted, None, items + [Data(b, length)], ch, ready)
    ensures forall x :: Queued(items + [Data(b, length)], x) <==> Queued(items, x) || x == SlotOf(b)
  {
    var after := items + [Data(b, length)];
    assert InHand(Some(b), SlotOf(b));
    forall x
      ensures Queued(after, x) <==> Queued(items, x) || x == SlotOf(b)
    {
      if Queued(items, x) {
        var i :| 0 <= i < |items| && InItem(items[i], x);
        assert InItem(after[i], x);
      }
      assert InItem(after[|items|], SlotOf(b));
    }
    assert !Queued(items, SlotOf(b));
    forall i, x | 0 <= i < |items| && InItem(after[|items|], x)
      ensures !InItem(after[i], x)
    {
      assert x == SlotOf(b) && after[i] == items[i];
    }
    forall i, j, x | 0 <= i < |items| && 0 <= j < |items| && InItem(after[i], x) && InItem(after[j], x)
      ensures i == j
    {
      assert InItem(items[i], x) && InItem(items[j], x);
    }
  }

  lemma AnnounceMoves(id: nat, accepted: map<nat, nat>, ph: Option<Buffer>, items: seq<Item>, ch: Option<Buffer>,
      ready: bool, ending: Ending)
    requires Placed(id, accepted, ph, items, ch, ready)
    ensures Placed(id, accepted, ph, items + [Terminal(ending)], ch, ready)
    ensures forall x :: Queued(items + [Terminal(ending)], x) <==> Queued(items, x)
  {
    var after := items + [Terminal(ending)];
    forall x
      ensures Queued(after, x) <==> Queued(items, x)
    {
      if Queued(items, x) {
        var i :| 0 <= i < |items| && InItem(items[i], x);
        assert InItem(after[i], x);
      }
    }
  }

  lemma DequeuedSlots(items: seq<Item>)
    requires |items| > 0
    ensures forall x :: Queued(items, x) <==> Queued(items[1..], x) || InItem(items[0], x)
  {
    forall x
      ensures Queued(items, x) <==> Queued(items[1..], x) || InItem(items[0], x)
    {
      if Queued(items, x) {
        var i :| 0 <= i < |items| && InItem(items[i], x);
        assert i > 0 ==> InItem(items[1..][i - 1], x);
      }
      if Queued(items[1..], x) {
        var i :| 0 <= i < |items[1..]| && InItem(items[1..][i], x);
        assert InItem(items[i + 1], x);
      }
    }
  }

  lemma TakeMoves(id: nat, accepted: map<nat, nat>, ph: Option<Buffer>, items: seq<Item>, ready: bool)
    requires Placed(id, accepted, ph, items, None, ready) && |items| > 0
    ensures Placed(id, accepted, ph, items[1..], if items[0].Data? then Some(items[0].buffer) else None, ready)
    ensures forall x :: Queued(items, x) <==> Queued(items[1..], x) || InItem(items[0], x)
  {
    DequeuedSlots(items);
    forall i, x | 0 <= i < |items[1..]| && InItem(items[0], x)
      ensures !InItem(items[1..][i], x)
    {
      assert items[1..][i] == items[i + 1];
    }
    forall i, j, x | 0 <= i < |items[1..]| && 0 <= j < |items[1..]| && InItem(items[1..][i], x) && InItem(items[1..][j], x)
      ensures i == j
    {
      assert InItem(items[i + 1], x) && InItem(items[j + 1], x);
    }
  }

  lemma ReturnBaseMoves(id: nat, accepted: map<nat, nat>, ph: Option<Buffer>, items: seq<Item>, ready: bool)
    requires Placed(id, accepted, ph, items, Some(Base), ready)
    ensures !ready && Placed(id, accepted, ph, items, None, true)
  {
    assert InHand(Some(Base), Private);
  }

  lemma ReturnLeaseMoves(id: nat, accepted: map<nat, nat>, ph: Option<Buffer>, items: seq<Item>, l: Lease, ready: bool)
    requires Placed(id, accepted, ph, items, Some(Leased(l)), ready)
    ensures Placed(id, accepted - {l.chunk}, ph, items, None, ready)
  {
    var x := Shared(l.chunk);
    assert InHand(Some(Leased(l)), x);
    assert ph.Some? ==> InHand(ph, SlotOf(ph.value));
    forall i | 0 <= i < |items| && items[i].Data?
      ensures Leases(id, accepted - {l.chunk}, items[i].buffer)
    {
      assert InItem(items[i], SlotOf(items[i].buffer));
      assert Queued(items, SlotOf(items[i].buffer));
    }
  }

  lemma DropMoves(id: nat, accepted: map<nat, nat>, b: Buffer, items: seq<Item>, ch: Option<Buffer>, ready: bool)
    requires Placed(id, accepted, Some(b), items, ch, ready)
    ensures b.Base? ==> Placed(id, accepted, None, items, ch, ready)
    ensures b.Leased? ==> Placed(id, accepted - {b.lease.chunk}, None, items, ch, ready)
  {
    assert InHand(Some(b), SlotOf(b));
    assert ch.Some? ==> InHand(ch, SlotOf(ch.value));
    forall i | 0 <= i < |items| && items[i].Data?
      ensures b.Leased? ==> Leases(id, accepted - {b.lease.chunk}, items[i].buffer)
    {
      assert InItem(items[i], SlotOf(items[i].buffer));
      assert Queued(items, SlotOf(items[i].buffer));
    }
  }

  lemma ReadyMoves(id: nat, accepted: map<nat, nat>, items: seq<Item>, ch: Option<Buffer>)
    requires Placed(id, accepted, None, items, ch, true)
    ensures Placed(id, accepted, Some(Base), items, ch, false)
  {
  }

  lemma FreshIsNowhere(id: nat, accepted: map<nat, nat>, items: seq<Item>, ch: Option<Buffer>, c: nat)
    requires AllLeased(id, accepted, None, items, ch) && c !in accepted
    ensures !Queued(items, Shared(c)) && !InHand(ch, Shared(c))
  {
  }

  lemma AcceptMoves(id: nat, accepted: map<nat, nat>, items: seq<Item>, ch: Option<Buffer>, ready: bool, l: Lease)
    requires Placed(id, accepted, None, items, ch, ready) && l.chunk !in accepted && l.requestID == id
    ensures Placed(id, accepted[l.chunk := l.generation], Some(Leased(l)), items, ch, ready)
  {
    var x := Shared(l.chunk);
    FreshIsNowhere(id, accepted, items, ch, l.chunk);
    forall i | 0 <= i < |items| && items[i].Data?
      ensures Leases(id, accepted[l.chunk := l.generation], items[i].buffer)
    {
      assert Leases(id, accepted, items[i].buffer);
    }
  }

  // ---- the request ----------------------------------------------------------------------------

  predicate HasAsked(at: ProducerAt) {
    at.RetryingBase? || at.GivingBack? || at.TryingNotify? || at.Waiting? || at.Accepting? || at.Withdrawing?
  }

  /** The request is open, and asks only while its producer is acquiring a buffer. */
  ghost predicate Polite(id: nat, v: View, at: ProducerAt, producerDone: bool) {
    && !v.closed
    && (v.notify ==> v.pending.Some?)
    && (v.pending.Some? ==> !v.waiting && v.pending.value.requestID == id && v.pending.value.chunk !in v.accepted)
    && (v.waiting || v.pending.Some? ==> HasAsked(at))
    && (at.Accepting? ==> !v.waiting && (v.pending.Some? || producerDone))
    && (at.Withdrawing? ==> producerDone)
    && (at.Dropping? ==> !at.after.Acquire?)
  }

  // ---- the order of events --------------------------------------------------------------------

  predicate Cleaning(at: ConsumerAt) {
    at.CancelingProducer? || at.CancelingRequest? || at.ClosingSource? || at.Awaiting? || at.Draining? || at.Returned?
  }

  predicate LengthOk(i: Item) {
    i.Data? ==> 0 < i.length <= BUFFER_SIZE
  }

  /** The consumer's place, its outcome and the two contexts go together. */
  ghost predicate Paced(at: ConsumerAt, end: Option<Ending>, closing: bool, ctx: Contexts) {
    && (closing <==> Cleaning(at))
    && (closing && !at.CancelingProducer? ==> ctx.producerDone)
    && (ctx.producerDone ==> ctx.done.Some? || closing)
    && (ctx.sourceClosed ==> ctx.producerDone && closing)
    && (ctx.done.Some? ==> ctx.done.value == Canceled || ctx.done.value == DeadlineExceeded)
    && (at.Next? || at.Parked? || at.Writing? ==> end.None?)
    && (at.ClosingQueue? || closing ==> end.Some?)
    && (at.Writing? ==> at.item.Data? && LengthOk(at.item))
  }

  /** After the consumer has waited for it, the producer is gone; after draining, so is the queue. */
  ghost predicate Settled(at: ConsumerAt, pat: ProducerAt, items: seq<Item>) {
    && (at.Draining? || at.Returned? ==> pat.Finished?)
    && (at.Returned? ==> items == [])
  }

  ghost predicate LengthsOk(items: seq<Item>) {
    forall i :: 0 <= i < |items| ==> LengthOk(items[i])
  }

  ghost predicate Counted(p: Producer) {
    && (p.at.Publishing? ==> 0 < p.at.length <= BUFFER_SIZE)
    && p.emptyReads <= 100 && (!Ended(p.at) ==> p.emptyReads < 100)
  }

  ghost predicate Ordered(s: State) {
    && Paced(s.c.at, s.c.got.end, s.q.closing, s.ctx)
    && Settled(s.c.at, s.p.at, s.q.items)
    && LengthsOk(s.q.items)
    && Counted(s.p)
    && Awake(s.q, s.c.at)
  }

  /** A consumer that sleeps while there is something to take has a notification on its way. */
  ghost predicate Awake(q: Queue, at: ConsumerAt) {
    at.Parked? && |q.items| > 0 ==> q.notify
  }

  // ---- the story the queue tells --------------------------------------------------------------

  function AfterEvents(after: After): seq<Event> {
    if after.Stop? then [End(after.ending)] else []
  }

  /** What the producer has decided to publish but has not yet. */
  function Unpublished(at: ProducerAt, mem: Memory): seq<Event> {
    match at
    case Publishing(cur, length, after) => [Payload(Contents(mem, cur, length))] + AfterEvents(after)
    case Dropping(_, after) => AfterEvents(after)
    case Announcing(ending) => [End(ending)]
    case _ => []
  }

  /** The producer will not read again. */
  predicate Ended(at: ProducerAt) {
    match at
    case Publishing(_, _, after) => !after.Acquire?
    case Dropping(_, after) => !after.Acquire?
    case Announcing(_) => true
    case Finished => true
    case _ => false
  }

  /** The producer agrees with the sequential one for as long as nobody disturbs it. */
  ghost predicate Keeps(e: Setup, p: Producer, ctx: Contexts) {
    var P := Produced(e.read, e.expected, p.faithful);
    && 0 <= P.bytesRead <= p.bytesRead
    && (P.done ==> Ended(p.at) && p.bytesRead == P.bytesRead)
    && (Undisturbed(ctx) ==> p.faithful == p.count && p.bytesRead == P.bytesRead && p.emptyReads == P.emptyReads)
  }

  ghost predicate Tells(e: Setup, p: Producer, log: seq<Event>, taken: nat, open: bool, mem: Memory) {
    var P := Produced(e.read, e.expected, p.faithful);
    && taken <= |log| && log[..taken] <= P.events
    && (open ==> log + Unpublished(p.at, mem) == P.events && (Ended(p.at) ==> P.done))
  }

  predicate Open(s: State) {
    s.ctx.done.None? && !s.q.closing
  }

  /** A buffer's memory holds the bytes that an item says it does. */
  ghost predicate Filled(mem: Memory, b: Buffer, length: nat) {
    SlotOf(b) in mem && length <= |mem[SlotOf(b)]|
  }

  ghost predicate ItemFilled(mem: Memory, i: Item) {
    i.Data? ==> Filled(mem, i.buffer, i.length)
  }

  /** The queued items are the published events not yet taken. */
  ghost predicate Matches(items: seq<Item>, log: seq<Event>, taken: nat, mem: Memory) {
    && |items| + taken == |log|
    && forall i :: 0 <= i < |items| ==> ItemFilled(mem, items[i]) && EventOf(mem, items[i]) == log[taken + i]
  }

  ghost predicate HandMatches(at: ConsumerAt, log: seq<Event>, taken: nat, mem: Memory) {
    at.Writing? ==> 0 < taken <= |log| && ItemFilled(mem, at.item) && EventOf(mem, at.item) == log[taken - 1]
  }

  ghost predicate HandFilled(at: ProducerAt, mem: Memory) {
    at.Publishing? ==> Filled(mem, at.cur, at.length)
  }

  /** How many of the taken events the consumer has dealt with. */
  function Dealt(at: ConsumerAt, taken: nat): nat {
    if at.Writing? && taken > 0 then taken - 1 else taken
  }

  ghost predicate Hears(write: Writer, c: Consumer, log: seq<Event>, taken: nat, done: Option<Error>) {
    && taken <= |log|
    && (done.None? || c.clean ==> Consumed(write, log[..Dealt(c.at, taken)]) == c.got)
    && (c.got.end.None? ==> c.got.out == Bytes(log[..Dealt(c.at, taken)]))
    && c.got.out <= Bytes(log[..taken])
    && c.got.bytesWritten == |c.got.out|
    && (c.clean ==> c.got.end.Some?)
    && (done.None? && c.got.end.Some? ==> c.clean)
  }

  // ---- the invariant --------------------------------------------------------------------------

  ghost predicate PlacedIn(e: Setup, s: State) {
    && Placed(e.id, s.view.accepted, HandOf(s.p.at), s.q.items, ConsumerHand(s.c.at), s.ready)
    && BaseSomewhere(s.p.at, s.q.items, ConsumerHand(s.c.at), s.ready)
  }

  ghost predicate MatchedIn(s: State) {
    && (!s.q.closing ==> Matches(s.q.items, s.q.log, s.q.taken, s.mem))
    && HandMatches(s.c.at, s.q.log, s.q.taken, s.mem)
    && HandFilled(s.p.at, s.mem)
  }

  ghost predicate Inv(e: Setup, s: State) {
    && !s.broken
    && PlacedIn(e, s)
    && Polite(e.id, s.view, s.p.at, s.ctx.producerDone)
    && Ordered(s)
    && Keeps(e, s.p, s.ctx)
    && Tells(e, s.p, s.q.log, s.q.taken, Open(s), s.mem)
    && MatchedIn(s)
    && Hears(e.write, s.c, s.q.log, s.q.taken, s.ctx.done)
  }

  lemma InitialInv(e: Setup, mem: Memory)
    ensures Inv(e, Initial(mem))
  {
    assert InHand(HandOf(Initial(mem).p.at), Private);
  }

  // ---- each part is kept ----------------------------------------------------------------------

  /** A release of a lease that is held takes just that chunk out of the accepted ones. */
  lemma ReleasedIs(id: nat, v: View, l: Lease, v': View)
    requires Released(id, v, l, v') && !v.closed && Leases(id, v.accepted, Leased(l))
    ensures Good(id, v, l) && v'.accepted == v.accepted - {l.chunk}
  {
  }

  lemma DropHeld(id: nat, a: map<nat, nat>, b: Buffer, items: seq<Item>, ch: Option<Buffer>, ready: bool)
    requires Placed(id, a, Some(b), items, ch, ready)
    ensures Leases(id, a, b)
  {
  }

  lemma HandHeld(id: nat, a: map<nat, nat>, ph: Option<Buffer>, items: seq<Item>, b: Buffer, ready: bool)
    requires Placed(id, a, ph, items, Some(b), ready)
    ensures Leases(id, a, b)
  {
  }

  lemma ReaderKeepsPlaced(e: Setup, s: State, m: Move, s': State)
    requires PlacedIn(e, s) && Polite(e.id, s.view, s.p.at, s.ctx.producerDone) && !s.broken
    requires ReaderStep(e, s, m, s')
    ensures PlacedIn(e, s') && !s'.broken
  {
    hide Placed, Queued, Contents, Enqueue, Released;
    var items, ch, ready, a := s.q.items, ConsumerHand(s.c.at), s.ready, s.view.accepted;
    match m
    case Read(r) =>
    case Publish =>
      PublishMoves(e.id, a, s.p.at.cur, items, ch, ready, s.p.at.length);
      EnqueueIs(s.q, Data(s.p.at.cur, s.p.at.length), EventOf(s.mem, Data(s.p.at.cur, s.p.at.length)));
    case Drop =>
      DropMoves(e.id, a, s.p.at.cur, items, ch, ready);
      DropHeld(e.id, a, s.p.at.cur, items, ch, ready);
      if s.p.at.cur.Leased? {
        ReleasedIs(e.id, s.view, s.p.at.cur.lease, s'.view);
      }
    case Announce =>
      AnnounceMoves(e.id, a, None, items, ch, ready, s.p.at.ending);
      EnqueueIs(s.q, Terminal(s.p.at.ending), End(s.p.at.ending));
  }

  lemma EnqueueIs(q: Queue, i: Item, e: Event)
    ensures Enqueue(q, i, e).items == if q.closing then q.items else q.items + [i]
  {
  }

  lemma AcquireKeepsPlaced(e: Setup, s: State, m: Move, s': State)
    requires PlacedIn(e, s) && Polite(e.id, s.view, s.p.at, s.ctx.producerDone) && !s.broken
    requires AcquireStep(e, s, m, s')
    ensures PlacedIn(e, s') && !s'.broken
  {
    hide Placed, Queued;
    var items, ch, ready, a := s.q.items, ConsumerHand(s.c.at), s.ready, s.view.accepted;
    match m
    case TryBase =>
      if ready { ReadyMoves(e.id, a, items, ch); }
    case RetryBase =>
      if ready { ReadyMoves(e.id, a, items, ch); }
    case WaitBase =>
      ReadyMoves(e.id, a, items, ch);
    case AcceptGrant =>
      if s.view.pending.Some? {
        AcceptMoves(e.id, a, items, ch, ready, s.view.pending.value);
      }
    case _ =>
  }

  lemma ServeKeepsPlaced(e: Setup, s: State, m: Move, s': State)
    requires PlacedIn(e, s) && !s.view.closed && Paced(s.c.at, s.c.got.end, s.q.closing, s.ctx) && !s.broken
    requires ServeStep(e, s, m, s')
    ensures PlacedIn(e, s') && !s'.broken
  {
    hide Placed, Queued, Contents, Deliver, Released;
    var ph, items, ready, a := HandOf(s.p.at), s.q.items, s.ready, s.view.accepted;
    match m
    case TakeNext =>
      if |items| > 0 { TakeMoves(e.id, a, ph, items, ready); }
    case Return =>
      if s.c.at.cur.Base? {
        ReturnBaseMoves(e.id, a, ph, items, ready);
      } else {
        HandHeld(e.id, a, ph, items, s.c.at.cur, ready);
        ReleasedIs(e.id, s.view, s.c.at.cur.lease, s'.view);
        ReturnLeaseMoves(e.id, a, ph, items, s.c.at.cur.lease, ready);
      }
    case _ =>
  }

  lemma DrainKeepsPlaced(e: Setup, s: State, s': State)
    requires PlacedIn(e, s) && !s.view.closed && !s.broken && StepDrain(e, s, s')
    ensures PlacedIn(e, s') && !s'.broken
  {
    hide Placed, Queued, Released;
    var ph, items, ready, a := HandOf(s.p.at), s.q.items, s.ready, s.view.accepted;
    if |items| > 0 {
      TakeMoves(e.id, a, ph, items, ready);
      if items[0].Data? {
        var b := items[0].buffer;
        if b.Base? {
          ReturnBaseMoves(e.id, a, ph, items[1..], ready);
        } else {
          HandHeld(e.id, a, ph, items[1..], b, ready);
          ReleasedIs(e.id, s.view, b.lease, s'.view);
          ReturnLeaseMoves(e.id, a, ph, items[1..], b.lease, ready);
        }
      }
    }
  }

  lemma CleanKeepsPlaced(e: Setup, s: State, m: Move, s': State)
    requires PlacedIn(e, s) && !s.view.closed && !s.broken
    requires CleanStep(e, s, m, s')
    ensures PlacedIn(e, s') && !s'.broken
  {
    hide Placed, Queued, StepDrain;
    if m.Drain? {
      DrainKeepsPlaced(e, s, s');
    }
  }

  lemma EnvironmentKeepsPlaced(e: Setup, s: State, m: Move, s': State)
    requires PlacedIn(e, s) && !s.broken && EnvironmentStep(e, s, m, s')
    ensures PlacedIn(e, s') && !s'.broken
  {
    hide Placed, Queued, Mine;
  }

  lemma ReaderKeepsPolite(e: Setup, s: State, m: Move, s': State)
    requires Polite(e.id, s.view, s.p.at, s.ctx.producerDone) && ReaderStep(e, s, m, s')
    ensures Polite(e.id, s'.view, s'.p.at, s'.ctx.producerDone)
  {
    hide Contents, Enqueue;
  }

  lemma AcquireKeepsPolite(e: Setup, s: State, m: Move, s': State)
    requires Polite(e.id, s.view, s.p.at, s.ctx.producerDone) && AcquireStep(e, s, m, s')
    ensures Polite(e.id, s'.view, s'.p.at, s'.ctx.producerDone)
  {
  }

  lemma ServeKeepsPolite(e: Setup, s: State, m: Move, s': State)
    requires Polite(e.id, s.view, s.p.at, s.ctx.producerDone) && ServeStep(e, s, m, s')
    ensures Polite(e.id, s'.view, s'.p.at, s'.ctx.producerDone)
  {
    hide Contents, Deliver;
  }

  lemma CleanKeepsPolite(e: Setup, s: State, m: Move, s': State)
    requires Polite(e.id, s.view, s.p.at, s.ctx.producerDone) && Ordered(s) && CleanStep(e, s, m, s')
    ensures Polite(e.id, s'.view, s'.p.at, s'.ctx.producerDone)
  {
  }

  lemma EnvironmentKeepsPolite(e: Setup, s: State, m: Move, s': State)
    requires Polite(e.id, s.view, s.p.at, s.ctx.producerDone) && EnvironmentStep(e, s, m, s')
    ensures Polite(e.id, s'.view, s'.p.at, s'.ctx.producerDone)
  {
    hide Mine;
  }

  lemma ReaderKeepsOrdered(e: Setup, s: State, m: Move, s': State)
    requires Ordered(s) && ReaderStep(e, s, m, s')
    ensures Ordered(s')
  {
    hide Contents, Released, Paced;
  }

  /** Acquiring a buffer changes nothing but the producer's place, the buffers and the request. */
  lemma AcquireFrame(e: Setup, s: State, m: Move, s': State)
    requires AcquireStep(e, s, m, s') && Polite(e.id, s.view, s.p.at, s.ctx.producerDone)
    ensures s'.q == s.q && s'.c == s.c && s'.ctx == s.ctx && s'.mem == s.mem && s'.p == s.p.(at := s'.p.at)
    ensures !Ended(s.p.at) && !s'.p.at.Publishing? && (Ended(s'.p.at) ==> s.ctx.producerDone)
    ensures Unpublished(s.p.at, s.mem) == [] && (!s.ctx.producerDone ==> Unpublished(s'.p.at, s.mem) == [])
  {
    hide Asked;
  }

  lemma AcquireKeepsOrdered(e: Setup, s: State, m: Move, s': State)
    requires Polite(e.id, s.view, s.p.at, s.ctx.producerDone) && Ordered(s) && AcquireStep(e, s, m, s')
    ensures Ordered(s')
  {
    AcquireFrame(e, s, m, s');
    hide AcquireStep, Paced, LengthsOk, Awake;
  }

  /** Serving leaves the producer, the contexts and the memory alone. */
  lemma ServeFrame(e: Setup, s: State, m: Move, s': State)
    requires ServeStep(e, s, m, s')
    ensures s'.p == s.p && s'.ctx == s.ctx && s'.mem == s.mem
    ensures s'.q.log == s.q.log && s'.q.closing == s.q.closing
    ensures s'.q.items == s.q.items || (|s.q.items| > 0 && s'.q.items == s.q.items[1..])
    ensures !s'.c.at.Returned? && !s'.c.at.Draining?
  {
    hide Contents, Deliver, Released;
  }

  lemma TakeKeepsPaced(s: State, s': State)
    requires Ordered(s) && StepTake(s, s')
    ensures Paced(s'.c.at, s'.c.got.end, s'.q.closing, s'.ctx)
  {
    hide Counted, Awake, Settled;
  }

  lemma ServeKeepsPaced(e: Setup, s: State, m: Move, s': State)
    requires Ordered(s) && ServeStep(e, s, m, s')
    ensures Paced(s'.c.at, s'.c.got.end, s'.q.closing, s'.ctx)
  {
    hide Contents, Deliver, Released, Counted, Awake, Settled, LengthsOk, StepTake;
    if m.TakeNext? {
      TakeKeepsPaced(s, s');
    }
  }

  lemma ServeKeepsAwake(e: Setup, s: State, m: Move, s': State)
    requires Awake(s.q, s.c.at) && ServeStep(e, s, m, s')
    ensures Awake(s'.q, s'.c.at)
  {
    hide Contents, Deliver, Released;
  }

  lemma ServeKeepsOrdered(e: Setup, s: State, m: Move, s': State)
    requires Ordered(s) && ServeStep(e, s, m, s')
    ensures Ordered(s')
  {
    ServeFrame(e, s, m, s');
    ServeKeepsPaced(e, s, m, s');
    ServeKeepsAwake(e, s, m, s');
    hide ServeStep, Counted, Paced, Awake;
  }

  lemma CleanKeepsOrdered(e: Setup, s: State, m: Move, s': State)
    requires Ordered(s) && CleanStep(e, s, m, s')
    ensures Ordered(s')
  {
    hide Released, Withdrawn, Counted;
  }

  lemma EnvironmentKeepsOrdered(e: Setup, s: State, m: Move, s': State)
    requires Ordered(s) && EnvironmentStep(e, s, m, s')
    ensures Ordered(s')
  {
    hide Granted, Mine;
  }

  // ---- the story is kept ----------------------------------------------------------------------

  lemma ProducedNext(read: Reader, expected: int, k: nat)
    requires !Produced(read, expected, k).done
    ensures Produced(read, expected, k + 1) == Absorb(Produced(read, expected, k), read(k), expected)
  {
  }

  /** A read moves the producer as it moves the sequential one. */
  lemma ReadAbsorbs(p: Producer, P: Production, cur: Buffer, r: ReadResult, expected: int, mem: Memory)
    requires p.bytesRead == P.bytesRead && p.emptyReads == P.emptyReads && p.emptyReads < 100 && P.bytesRead >= 0
    requires expected >= 0 ==> P.bytesRead <= expected
    ensures var at := AfterRead(p, cur, r, expected);
      var P' := Absorb(P, r, expected);
      && P'.events == P.events + Unpublished(at, mem[SlotOf(cur) := r.data])
      && (P'.done <==> Ended(at))
  {
    var at := AfterRead(p, cur, r, expected);
    if at.Publishing? {
      assert Contents(mem[SlotOf(cur) := r.data], cur, at.length) == r.data[..at.length];
    }
  }

  lemma ReadKeepsStory(e: Setup, s: State, r: ReadResult, s': State)
    requires Keeps(e, s.p, s.ctx) && Counted(s.p)
    requires Tells(e, s.p, s.q.log, s.q.taken, Open(s), s.mem) && (Open(s) ==> Undisturbed(s.ctx))
    requires StepRead(e, s, r, s')
    ensures Keeps(e, s'.p, s'.ctx) && Tells(e, s'.p, s'.q.log, s'.q.taken, Open(s'), s'.mem)
  {
    hide Produced, Absorb, AfterRead, Contents;
    if Undisturbed(s.ctx) {
      var P := Produced(e.read, e.expected, s.p.count);
      ProducedNext(e.read, e.expected, s.p.count);
      ProducedTallies(e.read, e.expected, s.p.count);
      ReadAbsorbs(s.p, P, s.p.at.cur, r, e.expected, s.mem);
      AbsorbCounts(s.p, P, s.p.at.cur, r, e.expected);
    }
  }

  lemma AbsorbCounts(p: Producer, P: Production, cur: Buffer, r: ReadResult, expected: int)
    requires p.bytesRead == P.bytesRead && p.emptyReads == P.emptyReads
    ensures var p' := ReadBy(p, cur, r, expected, true);
      var P' := Absorb(P, r, expected);
      P'.bytesRead == p'.bytesRead >= P.bytesRead && P'.emptyReads == p'.emptyReads
  {
  }

  lemma PublishKeepsStory(e: Setup, s: State, s': State)
    requires Keeps(e, s.p, s.ctx) && Tells(e, s.p, s.q.log, s.q.taken, Open(s), s.mem)
    requires StepPublish(s, s')
    ensures Keeps(e, s'.p, s'.ctx) && Tells(e, s'.p, s'.q.log, s'.q.taken, Open(s'), s'.mem)
  {
    hide Produced, Contents;
    assert s'.q.log[..s.q.taken] == s.q.log[..s.q.taken];
    assert Open(s) ==> s'.q.log + Unpublished(s'.p.at, s.mem) == s.q.log + Unpublished(s.p.at, s.mem);
  }

  lemma DropKeepsStory(e: Setup, s: State, s': State)
    requires Keeps(e, s.p, s.ctx) && Polite(e.id, s.view, s.p.at, s.ctx.producerDone)
    requires Tells(e, s.p, s.q.log, s.q.taken, Open(s), s.mem)
    requires StepDrop(e, s, s')
    ensures Keeps(e, s'.p, s'.ctx) && Tells(e, s'.p, s'.q.log, s'.q.taken, Open(s'), s'.mem)
  {
    hide Produced, Contents, Released;
  }

  lemma AnnounceKeepsStory(e: Setup, s: State, s': State)
    requires Keeps(e, s.p, s.ctx) && Tells(e, s.p, s.q.log, s.q.taken, Open(s), s.mem)
    requires StepAnnounce(s, s')
    ensures Keeps(e, s'.p, s'.ctx) && Tells(e, s'.p, s'.q.log, s'.q.taken, Open(s'), s'.mem)
  {
    hide Produced, Contents;
    assert s'.q.log[..s.q.taken] == s.q.log[..s.q.taken];
    assert Open(s) ==> s'.q.log + Unpublished(s'.p.at, s.mem) == s.q.log + Unpublished(s.p.at, s.mem);
  }

  lemma ReaderKeepsStory(e: Setup, s: State, m: Move, s': State)
    requires Keeps(e, s.p, s.ctx) && Polite(e.id, s.view, s.p.at, s.ctx.producerDone) && Ordered(s)
    requires Tells(e, s.p, s.q.log, s.q.taken, Open(s), s.mem)
    requires ReaderStep(e, s, m, s')
    ensures Keeps(e, s'.p, s'.ctx) && Tells(e, s'.p, s'.q.log, s'.q.taken, Open(s'), s'.mem)
  {
    OpenIsUndisturbed(s);
    hide Keeps, Tells, Polite, Paced, Settled, LengthsOk, Counted, Awake, StepRead, StepPublish, StepDrop,
        StepAnnounce, Open;
    match m
    case Read(r) => ReadKeepsStory(e, s, r, s');
    case Publish => PublishKeepsStory(e, s, s');
    case Drop => DropKeepsStory(e, s, s');
    case Announce => AnnounceKeepsStory(e, s, s');
  }

  lemma OpenIsUndisturbed(s: State)
    requires Ordered(s)
    ensures Open(s) ==> Undisturbed(s.ctx)
  {
  }

  lemma AcquireKeepsStory(e: Setup, s: State, m: Move, s': State)
    requires Keeps(e, s.p, s.ctx) && Ordered(s) && Polite(e.id, s.view, s.p.at, s.ctx.producerDone)
    requires Tells(e, s.p, s.q.log, s.q.taken, Open(s), s.mem)
    requires AcquireStep(e, s, m, s')
    ensures Keeps(e, s'.p, s'.ctx) && Tells(e, s'.p, s'.q.log, s'.q.taken, Open(s'), s'.mem)
  {
    AcquireFrame(e, s, m, s');
    hide Produced, AcquireStep, Awake, Counted, Settled, Polite;
  }

  lemma TakenIs(e: Setup, s: State, m: Move, s': State)
    requires ServeStep(e, s, m, s') && Paced(s.c.at, s.c.got.end, s.q.closing, s.ctx)
    ensures s'.q.taken == s.q.taken || (s'.q.taken == s.q.taken + 1 && Open(s) && |s.q.items| > 0)
  {
    hide Contents, Deliver, Released;
  }

  lemma ServeKeepsStory(e: Setup, s: State, m: Move, s': State)
    requires Keeps(e, s.p, s.ctx) && MatchedIn(s) && Ordered(s)
    requires Tells(e, s.p, s.q.log, s.q.taken, Open(s), s.mem)
    requires ServeStep(e, s, m, s')
    ensures Keeps(e, s'.p, s'.ctx) && Tells(e, s'.p, s'.q.log, s'.q.taken, Open(s'), s'.mem)
  {
    hide Produced, Contents, Deliver, Released, EventOf, ItemFilled, HandMatches, HandFilled, Settled, LengthsOk,
        Counted, Awake;
    ServeFrame(e, s, m, s');
    TakenIs(e, s, m, s');
    hide ServeStep, Paced;
    if s'.q.taken > s.q.taken {
      var P := Produced(e.read, e.expected, s.p.faithful);
      assert s.q.log <= P.events;
      assert s.q.log[..s'.q.taken] <= s.q.log;
    }
  }

  lemma CleanKeepsStory(e: Setup, s: State, m: Move, s': State)
    requires Keeps(e, s.p, s.ctx) && Tells(e, s.p, s.q.log, s.q.taken, Open(s), s.mem) && Ordered(s)
    requires CleanStep(e, s, m, s')
    ensures Keeps(e, s'.p, s'.ctx) && Tells(e, s'.p, s'.q.log, s'.q.taken, Open(s'), s'.mem)
  {
    hide Produced, Released, Withdrawn, Settled, LengthsOk, Counted, Awake;
  }

  lemma EnvironmentKeepsStory(e: Setup, s: State, m: Move, s': State)
    requires Keeps(e, s.p, s.ctx) && Tells(e, s.p, s.q.log, s.q.taken, Open(s), s.mem)
    requires HandFilled(s.p.at, s.mem) && PlacedIn(e, s)
    requires EnvironmentStep(e, s, m, s')
    ensures Keeps(e, s'.p, s'.ctx) && Tells(e, s'.p, s'.q.log, s'.q.taken, Open(s'), s'.mem)
  {
    HandIsMine(e, s);
    hide Produced, Granted, Placed, BaseSomewhere;
  }

  lemma HandIsMine(e: Setup, s: State)
    requires PlacedIn(e, s)
    ensures s.p.at.Publishing? ==> Mine(s, SlotOf(s.p.at.cur))
  {
    hide Exclusive, Covers, BaseSomewhere;
  }
}

/**
 The buffered media copy of `internal/gateway/media_buffer_copy.go`: a producer goroutine reads ahead
 into buffers and queues them, a consumer goroutine writes them out. Every mutex section, channel
 operation, read and write is one step; the environment may cancel, grant chunks, and overwrite memory
 that is not this request's. Steps of the two goroutines and the environment interleave freely.
 */
module BufferedCopyModel {
  import opened Wrappers
  import Pool = MediaBufferModel
  import opened MediaBufferOperations
  import opened MediaCopy

  // ---- the allocator, as the copy sees it -----------------------------------------------------

  type Lease = Pool.Lease

  /** The scheduler granted the waiting request a chunk. */
  ghost predicate Granted(id: nat, v: View, v': View) {
    && v.waiting && v.pending.None? && v'.pending.Some?
    && v'.pending.value.requestID == id && v'.pending.value.chunk !in v.accepted
    && v' == v.(waiting := false, notify := true, pending := v'.pending)
  }

  ghost predicate SameOrGranted(id: nat, v: View, v': View) {
    v' == v || Granted(id, v, v')
  }

  ghost predicate Asked(id: nat, v: View, v': View) {
    if v.closed || v.pending.Some? || v.waiting then v' == v
    else SameOrGranted(id, v.(waiting := true), v')
  }

  function Withdrawn(v: View): View {
    if v.closed then v else v.(pending := None, notify := false, waiting := false)
  }

  ghost predicate Good(id: nat, v: View, l: Lease) {
    !v.closed && l.requestID == id && l.chunk in v.accepted && v.accepted[l.chunk] == l.generation
  }

  ghost predicate Released(id: nat, v: View, l: Lease, v': View) {
    if Good(id, v, l) then SameOrGranted(id, v.(accepted := v.accepted - {l.chunk}), v') else v' == v
  }

  function Accept(v: View): View
    requires v.pending.Some?
  {
    var l := v.pending.value;
    v.(pending := None, notify := false, accepted := v.accepted[l.chunk := l.generation])
  }

  // ---- buffers and events ---------------------------------------------------------------------

  /** A buffer that goes from hand to hand: the private base buffer, or a leased chunk. */
  datatype Buffer = Base | Leased(lease: Lease)

  /** Where a buffer's bytes are. */
  datatype Slot = Private | Shared(chunk: nat)

  function SlotOf(b: Buffer): Slot {
    if b.Base? then Private else Shared(b.lease.chunk)
  }

  datatype Item = Data(buffer: Buffer, length: nat) | Terminal(ending: Ending)

  type Memory = map<Slot, seq<Byte>>

  /** The first `length` bytes of a buffer. */
  function Contents(mem: Memory, b: Buffer, length: nat): seq<Byte> {
    if SlotOf(b) in mem && length <= |mem[SlotOf(b)]| then mem[SlotOf(b)][..length] else []
  }

  function EventOf(mem: Memory, i: Item): Event {
    match i
    case Data(b, length) => Payload(Contents(mem, b, length))
    case Terminal(ending) => End(ending)
  }

  // ---- the two goroutines ---------------------------------------------------------------------

  /** What the producer does once its buffer is gone. */
  datatype After = Acquire | Stop(ending: Ending) | Quit

  datatype ProducerAt =
    | Reading(cur: Buffer)
    | Publishing(cur: Buffer, length: nat, after: After)
    | Dropping(cur: Buffer, after: After)
    | Announcing(ending: Ending)
    | TryingBase
    | CheckingContext
    | Asking
    | RetryingBase
    | GivingBack
    | TryingNotify
    | Waiting
    | Accepting
    | Withdrawing
    | Finished

  datatype ConsumerAt =
    | Next
    | Parked
    | Writing(item: Item)
    | Returning(cur: Buffer)
    | ClosingQueue
    | CancelingProducer
    | CancelingRequest
    | ClosingSource
    | Awaiting
    | Draining
    | Returned

  /** `count` numbers the reads; `faithful` those issued before any cancellation. */
  datatype Producer = Producer(at: ProducerAt, bytesRead: int, emptyReads: nat, count: nat, faithful: nat)

  /** `log` is everything ever published and `taken` how much of it was dequeued. */
  datatype Queue = Queue(items: seq<Item>, notify: bool, closing: bool, log: seq<Event>, taken: nat)

  /** `got.end` is the selected outcome; `clean` says that it was selected before any cancellation. */
  datatype Consumer = Consumer(at: ConsumerAt, got: Consumption, clean: bool)

  /** The caller's context, the producer's derived one, and the source. */
  datatype Contexts = Contexts(done: Option<Error>, producerDone: bool, sourceClosed: bool)

  datatype State = State(
    p: Producer, q: Queue, c: Consumer, ctx: Contexts,
    ready: bool, view: View, mem: Memory, broken: bool)

  /** The scripts, the expected length (negative for none) and the request's id. */
  datatype Setup = Setup(read: Reader, write: Writer, expected: int, id: nat)

  const FRESH_VIEW := View(false, false, false, None, map[])

  function Initial(mem: Memory): State {
    State(Producer(Reading(Base), 0, 0, 0, 0), Queue([], false, false, [], 0),
          Consumer(Next, Consumption(0, [], [], None), false), Contexts(None, false, false),
          false, FRESH_VIEW, mem, false)
  }

  // ---- producer steps -------------------------------------------------------------------------

  function Continue(after: After): ProducerAt {
    match after
    case Acquire => TryingBase
    case Stop(ending) => Announcing(ending)
    case Quit => Finished
  }

  function AfterRead(p: Producer, cur: Buffer, r: ReadResult, expected: int): ProducerAt {
    if !Valid(r.n) then Dropping(cur, Stop(Ending(Upstream, Some(InvalidRead))))
    else if r.n > 0 then
      var total := p.bytesRead + r.n;
      var length := WriteLength(r.n, total, expected);
      var after :=
        if Exceeds(total, expected) then Stop(Ending(Upstream, Some(LengthMismatch)))
        else if r.err.Some? then Stop(ReadEnding(r.err.value, total, expected))
        else Acquire;
      if length > 0 then Publishing(cur, length, after) else Dropping(cur, after)
    else if r.err.None? then
      if p.emptyReads + 1 < 100 then Reading(cur) else Dropping(cur, Stop(Ending(Upstream, Some(NoProgress))))
    else Dropping(cur, Stop(ReadEnding(r.err.value, p.bytesRead, expected)))
  }

  /** Nothing has been cancelled or closed that could disturb the reader. */
  predicate Undisturbed(ctx: Contexts) {
    ctx.done.None? && !ctx.producerDone && !ctx.sourceClosed
  }

  function ReadBy(p: Producer, cur: Buffer, r: ReadResult, expected: int, undisturbed: bool): Producer {
    Producer(AfterRead(p, cur, r, expected),
             if Valid(r.n) then p.bytesRead + r.n else p.bytesRead,
             if r.n == 0 && r.err.None? then p.emptyReads + 1 else if 0 < r.n <= BUFFER_SIZE then 0 else p.emptyReads,
             p.count + 1,
             if undisturbed then p.count + 1 else p.faithful)
  }

  function Enqueue(q: Queue, i: Item, e: Event): Queue {
    if q.closing then q
    else q.(items := q.items + [i], notify := true, log := q.log + [e])
  }

  function At(s: State, at: ProducerAt): State {
    s.(p := s.p.(at := at))
  }

  /** An allocator call failed in a way that must never happen. */
  function Broken(s: State): State {
    At(s.(broken := true),
       if s.ctx.producerDone then Finished else Announcing(Ending(Upstream, Some(CopyInvariant))))
  }

  ghost predicate StepRead(e: Setup, s: State, r: ReadResult, s': State) {
    && s.p.at.Reading?
    && (Undisturbed(s.ctx) ==> r == e.read(s.p.count))
    && s' == s.(p := ReadBy(s.p, s.p.at.cur, r, e.expected, Undisturbed(s.ctx)),
                mem := s.mem[SlotOf(s.p.at.cur) := r.data])
  }

  ghost predicate StepPublish(s: State, s': State) {
    && s.p.at.Publishing?
    && var item := Data(s.p.at.cur, s.p.at.length);
      s' == At(s.(q := Enqueue(s.q, item, EventOf(s.mem, item))),
               if s.q.closing then Dropping(s.p.at.cur, Quit) else Continue(s.p.at.after))
  }

  ghost predicate StepDrop(e: Setup, s: State, s': State) {
    && s.p.at.Dropping?
    && (if s.p.at.cur.Base? then s' == At(s, Continue(s.p.at.after))
        else
          var l := s.p.at.cur.lease;
          && Released(e.id, s.view, l, s'.view)
          && s' == At(s, Continue(s.p.at.after)).(view := s'.view, broken := s.broken || !Good(e.id, s.view, l)))
  }

  ghost predicate StepAnnounce(s: State, s': State) {
    && s.p.at.Announcing?
    && s' == At(s.(q := Enqueue(s.q, Terminal(s.p.at.ending), End(s.p.at.ending))), Finished)
  }

  ghost predicate StepTryBase(s: State, s': State) {
    && s.p.at.TryingBase?
    && s' == if s.ready then At(s.(ready := false), Reading(Base)) else At(s, CheckingContext)
  }

  ghost predicate StepCheckContext(s: State, s': State) {
    s.p.at.CheckingContext? && s' == At(s, if s.ctx.producerDone then Finished else Asking)
  }

  ghost predicate StepAsk(e: Setup, s: State, s': State) {
    && s.p.at.Asking?
    && Asked(e.id, s.view, s'.view)
    && s' == if s.view.closed then Broken(s) else At(s, RetryingBase).(view := s'.view)
  }

  ghost predicate StepRetryBase(s: State, s': State) {
    && s.p.at.RetryingBase?
    && s' == if s.ready then At(s.(ready := false), GivingBack) else At(s, TryingNotify)
  }

  ghost predicate StepGiveBack(s: State, s': State) {
    && s.p.at.GivingBack?
    && s' == if s.view.closed then Broken(s) else At(s, Reading(Base)).(view := Withdrawn(s.view))
  }

  ghost predicate StepTryNotify(s: State, s': State) {
    && s.p.at.TryingNotify?
    && s' == if s.view.notify then At(s, Accepting).(view := s.view.(notify := false)) else At(s, Waiting)
  }

  /** The three arms of the blocking select. */
  ghost predicate StepWaitDone(s: State, s': State) {
    s.p.at.Waiting? && s.ctx.producerDone && s' == At(s, Withdrawing)
  }

  ghost predicate StepWaitBase(s: State, s': State) {
    s.p.at.Waiting? && s.ready && s' == At(s.(ready := false), GivingBack)
  }

  ghost predicate StepWaitNotify(s: State, s': State) {
    s.p.at.Waiting? && s.view.notify && s' == At(s, Accepting).(view := s.view.(notify := false))
  }

  ghost predicate StepAccept(s: State, s': State) {
    && s.p.at.Accepting?
    && s' ==
      if !s.view.closed && s.view.pending.Some? then
        At(s, Reading(Leased(s.view.pending.value))).(view := Accept(s.view))
      else if !s.view.closed && s.ctx.producerDone then At(s, Finished)
      else Broken(s)
  }

  ghost predicate StepWithdraw(s: State, s': State) {
    && s.p.at.Withdrawing?
    && s' == At(s, Finished).(view := Withdrawn(s.view), broken := s.broken || s.view.closed)
  }

  // ---- consumer steps -------------------------------------------------------------------------

  function To(s: State, at: ConsumerAt): State {
    s.(c := s.c.(at := at))
  }

  /** The consumer settles on an outcome and starts to clean up. */
  function Select(s: State, ending: Ending): State {
    s.(c := Consumer(ClosingQueue, s.c.got.(end := Some(ending)), s.ctx.done.None?))
  }

  function Dequeue(q: Queue): Queue
    requires |q.items| > 0
  {
    q.(items := q.items[1..], taken := q.taken + 1)
  }

  ghost predicate StepTake(s: State, s': State) {
    && s.c.at.Next?
    && s' ==
      if s.ctx.done.Some? then Select(s, Ending(NoDirection, s.ctx.done))
      else if |s.q.items| > 0 then
        match s.q.items[0]
        case Terminal(ending) => Select(s.(q := Dequeue(s.q)), ending)
        case Data(_, _) => To(s.(q := Dequeue(s.q)), Writing(s.q.items[0]))
      else if s.q.closing then Select(s, Ending(Upstream, Some(CopyState)))
      else To(s, Parked)
  }

  ghost predicate StepWakeCanceled(s: State, s': State) {
    s.c.at.Parked? && s.ctx.done.Some? && s' == Select(s, Ending(NoDirection, s.ctx.done))
  }

  ghost predicate StepWakeNotified(s: State, s': State) {
    s.c.at.Parked? && s.q.notify && s' == To(s.(q := s.q.(notify := false)), Next)
  }

  /** Once the context is done the writer may do anything. */
  ghost predicate StepWrite(e: Setup, s: State, w: WriteResult, s': State) {
    && s.c.at.Writing? && s.c.at.item.Data?
    && var payload := Contents(s.mem, s.c.at.item.buffer, s.c.at.item.length);
      && (s.ctx.done.None? ==> w == e.write(s.c.got.payloads + [payload]))
      && var got := Deliver(s.c.got, payload, w);
        s' == s.(c := Consumer(Returning(s.c.at.item.buffer), got, got.end.Some? && s.ctx.done.None?))
  }

  /** An invariant error at this point joins the selected error, or becomes it. */
  function BrokenReturn(s: State): State {
    var end := if s.c.got.end.Some? then s.c.got.end else Some(Ending(Upstream, Some(CopyInvariant)));
    s.(broken := true, c := Consumer(ClosingQueue, s.c.got.(end := end), false))
  }

  ghost predicate StepReturn(e: Setup, s: State, s': State) {
    && s.c.at.Returning?
    && var t := To(s, if s.c.got.end.Some? then ClosingQueue else Next);
      if s.c.at.cur.Base? then
        s' == if s.ready then BrokenReturn(s) else t.(ready := true)
      else
        var l := s.c.at.cur.lease;
        && Released(e.id, s.view, l, s'.view)
        && s' == if Good(e.id, s.view, l) then t.(view := s'.view) else BrokenReturn(s)
  }

  /** From here on the queue's items are the consumer's own. */
  ghost predicate StepCloseQueue(s: State, s': State) {
    s.c.at.ClosingQueue? && s' == To(s.(q := s.q.(closing := true, notify := true)), CancelingProducer)
  }

  ghost predicate StepCancelProducer(s: State, s': State) {
    && s.c.at.CancelingProducer?
    && s' == To(s.(ctx := s.ctx.(producerDone := true)), CancelingRequest)
  }

  ghost predicate StepCancelRequest(s: State, s': State) {
    && s.c.at.CancelingRequest?
    && s' == To(s, ClosingSource).(view := Withdrawn(s.view), broken := s.broken || s.view.closed)
  }

  ghost predicate StepCloseSource(s: State, s': State) {
    s.c.at.ClosingSource? && s' == To(s.(ctx := s.ctx.(sourceClosed := true)), Awaiting)
  }

  ghost predicate StepAwait(s: State, s': State) {
    s.c.at.Awaiting? && s.p.at.Finished? && s' == To(s, Draining)
  }

  ghost predicate StepDrain(e: Setup, s: State, s': State) {
    && s.c.at.Draining?
    && if |s.q.items| == 0 then s' == To(s, Returned)
       else
         var t := s.(q := s.q.(items := s.q.items[1..]));
         match s.q.items[0]
         case Terminal(_) => s' == t
         case Data(b, _) =>
           if b.Base? then s' == if s.ready then t.(broken := true) else t.(ready := true)
           else
             && Released(e.id, s.view, b.lease, s'.view)
             && s' == t.(view := s'.view, broken := s.broken || !Good(e.id, s.view, b.lease))
  }

  // ---- the environment ------------------------------------------------------------------------

  ghost predicate StepCancel(s: State, err: Error, s': State) {
    && s.ctx.done.None? && (err == Canceled || err == DeadlineExceeded)
    && s' == s.(ctx := s.ctx.(done := Some(err)))
  }

  /** Cancellation reaches the producer's derived context some time later. */
  ghost predicate StepPropagate(s: State, s': State) {
    s.ctx.done.Some? && s' == s.(ctx := s.ctx.(producerDone := true))
  }

  ghost predicate StepGrant(e: Setup, s: State, s': State) {
    Granted(e.id, s.view, s'.view) && s' == s.(view := s'.view)
  }

  /** A slot that others must leave alone: the base buffer and the accepted chunks, but for the one that
      the reader is filling. */
  ghost predicate Mine(s: State, x: Slot) {
    && (x == Private || x.chunk in s.view.accepted)
    && !(s.p.at.Reading? && SlotOf(s.p.at.cur) == x)
  }

  ghost predicate StepScribble(s: State, s': State) {
    && s' == s.(mem := s'.mem)
    && forall x: Slot :: Mine(s, x) ==> ((x in s'.mem <==> x in s.mem) && (x in s.mem ==> s'.mem[x] == s.mem[x]))
  }

  // ---- runs -----------------------------------------------------------------------------------

  datatype Move =
    | Read(r: ReadResult) | Publish | Drop | Announce
    | TryBase | CheckContext | Ask | RetryBase | GiveBack | TryNotify
    | WaitDone | WaitBase | WaitNotify | AcceptGrant | Withdraw
    | TakeNext | WakeCanceled | WakeNotified | Write(w: WriteResult) | Return
    | CloseQueue | CancelProducer | CancelRequest | CloseSource | Await | Drain
    | Cancel(err: Error) | Propagate | Grant | Scribble

  /** The producer reads and hands on. */
  ghost predicate ReaderStep(e: Setup, s: State, m: Move, s': State) {
    match m
    case Read(r) => StepRead(e, s, r, s')
    case Publish => StepPublish(s, s')
    case Drop => StepDrop(e, s, s')
    case Announce => StepAnnounce(s, s')
    case _ => false
  }

  /** The producer gets its next buffer. */
  ghost predicate AcquireStep(e: Setup, s: State, m: Move, s': State) {
    match m
    case TryBase => StepTryBase(s, s')
    case CheckContext => StepCheckContext(s, s')
    case Ask => StepAsk(e, s, s')
    case RetryBase => StepRetryBase(s, s')
    case GiveBack => StepGiveBack(s, s')
    case TryNotify => StepTryNotify(s, s')
    case WaitDone => StepWaitDone(s, s')
    case WaitBase => StepWaitBase(s, s')
    case WaitNotify => StepWaitNotify(s, s')
    case AcceptGrant => StepAccept(s, s')
    case Withdraw => StepWithdraw(s, s')
    case _ => false
  }

  /** The consumer takes events and writes them. */
  ghost predicate ServeStep(e: Setup, s: State, m: Move, s': State) {
    match m
    case TakeNext => StepTake(s, s')
    case WakeCanceled => StepWakeCanceled(s, s')
    case WakeNotified => StepWakeNotified(s, s')
    case Write(w) => StepWrite(e, s, w, s')
    case Return => StepReturn(e, s, s')
    case _ => false
  }

  /** The consumer cleans up. */
  ghost predicate CleanStep(e: Setup, s: State, m: Move, s': State) {
    match m
    case CloseQueue => StepCloseQueue(s, s')
    case CancelProducer => StepCancelProducer(s, s')
    case CancelRequest => StepCancelRequest(s, s')
    case CloseSource => StepCloseSource(s, s')
    case Await => StepAwait(s, s')
    case Drain => StepDrain(e, s, s')
    case _ => false
  }

  ghost predicate EnvironmentStep(e: Setup, s: State, m: Move, s': State) {
    match m
    case Cancel(err) => StepCancel(s, err, s')
    case Propagate => StepPropagate(s, s')
    case Grant => StepGrant(e, s, s')
    case Scribble => StepScribble(s, s')
    case _ => false
  }

  ghost predicate Step(e: Setup, s: State, m: Move, s': State) {
    || ReaderStep(e, s, m, s') || AcquireStep(e, s, m, s')
    || ServeStep(e, s, m, s') || CleanStep(e, s, m, s')
    || EnvironmentStep(e, s, m, s')
  }

  /** States of a run from its start, and the move between each two. */
  ghost predicate Run(e: Setup, states: seq<State>, moves: seq<Move>) {
    && |states| == |moves| + 1
    && states[0] == Initial(states[0].mem)
    && (forall i :: 0 <= i < |moves| ==> Step(e, states[i], moves[i], states[i + 1]))
  }

  /** What the caller receives. */
  function ResultOf(s: State): Result
    requires s.c.got.end.Some?
  {
    var end := s.c.got.end.value;
    Result(s.p.bytesRead, s.c.got.bytesWritten, end.direction, end.err, end.direction, end.err, s.broken)
  }
}

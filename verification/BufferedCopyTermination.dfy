/**
 How long a buffered copy can run: every step of either goroutine uses up a budget that the script of
 the reader sets, and a cancelled consumer reaches its cleanup in a few steps of its own.

 The budgets bound the steps of the goroutines only: the environment may take any number between them. After a
 cancellation the producer's steps before it hears of it are counted apart, since nothing says how soon that is.
 */
module BufferedCopyTermination {
  import opened Wrappers
  import opened MediaBufferOperations
  import opened MediaCopy
  import opened BufferedCopyModel
  import opened BufferedCopyInvariant
  import opened BufferedCopyStory
  import opened BufferedCopyResults

  /** Steps from here to the next read or to the end of the producer, at the most. */
  function Distance(at: ProducerAt): nat {
    match at
    case Publishing(_, _, _) => 9
    case TryingBase => 8
    case CheckingContext => 7
    case Asking => 6
    case RetryingBase => 5
    case TryingNotify => 4
    case Waiting => 3
    case GivingBack => 2
    case Accepting => 2
    case Dropping(_, _) => 2
    case Announcing(_) => 1
    case Withdrawing => 1
    case Reading(_) => 0
    case Finished => 0
  }

  function Remaining(bound: nat, count: nat): nat {
    if count < bound then bound - count else 0
  }

  /** What the producer may still do: `bound` reads, or, once its context is done, one last read and as
      many empty ones as it tolerates. */
  function ProducerBudget(p: Producer, ctx: Contexts, bound: nat): nat {
    if !ctx.producerDone then 300 + 10 * Remaining(bound, p.count) + Distance(p.at)
    else if p.at.Reading? then 20 + (if p.emptyReads < 100 then 100 - p.emptyReads else 0)
    else if Ended(p.at) || p.at.Publishing? then Distance(p.at)
    else 200 + Distance(p.at)
  }

  function ConsumerBudget(at: ConsumerAt): nat {
    match at
    case Writing(_) => 104
    case Returning(_) => 103
    case Next => 102
    case Parked => 101
    case ClosingQueue => 60
    case CancelingProducer => 50
    case CancelingRequest => 40
    case ClosingSource => 30
    case Awaiting => 20
    case Draining => 10
    case Returned => 0
  }

  function Budget(s: State, bound: nat): nat {
    10 * ProducerBudget(s.p, s.ctx, bound) + 5 * |s.q.items| + (if s.q.notify then 2 else 0) + ConsumerBudget(s.c.at)
  }

  /** The script has an end that the producer will meet, or the producer has been told to stop. */
  ghost predicate Bounded(e: Setup, s: State, bound: nat) {
    || (s.ctx.done.None? && Produced(e.read, e.expected, bound).done)
    || (s.ctx.producerDone && s.q.closing)
  }

  lemma {:induction false} ProducedStaysDone(read: Reader, expected: int, j: nat, k: nat)
    requires j <= k && Produced(read, expected, j).done
    ensures Produced(read, expected, k) == Produced(read, expected, j)
  {
    if j < k {
      ProducedStaysDone(read, expected, j, k - 1);
    }
  }

  /** An undisturbed producer that reads has reads left in its script. */
  lemma ReadsRemain(e: Setup, s: State, bound: nat)
    requires Keeps(e, s.p, s.ctx) && Paced(s.c.at, s.c.got.end, s.q.closing, s.ctx)
    requires s.p.at.Reading? && !s.ctx.producerDone && Bounded(e, s, bound)
    ensures s.p.count < bound
  {
    if bound <= s.p.count {
      ProducedStaysDone(e.read, e.expected, bound, s.p.count);
    }
  }

  lemma ReadSpends(e: Setup, s: State, r: ReadResult, s': State, bound: nat)
    requires Keeps(e, s.p, s.ctx) && Paced(s.c.at, s.c.got.end, s.q.closing, s.ctx) && Counted(s.p)
    requires Bounded(e, s, bound) && StepRead(e, s, r, s')
    ensures Budget(s', bound) < Budget(s, bound)
  {
    if !s.ctx.producerDone {
      ReadsRemain(e, s, bound);
    }
    hide Keeps, Paced, Bounded, Undisturbed;
  }

  lemma HandOnSpends(e: Setup, s: State, m: Move, s': State, bound: nat)
    requires Bounded(e, s, bound) && Ordered(s) && Polite(e.id, s.view, s.p.at, s.ctx.producerDone)
    requires ReaderStep(e, s, m, s') && !m.Read?
    ensures Budget(s', bound) < Budget(s, bound)
  {
    hide Contents, Released, Produced, Counted, LengthsOk, Awake, Settled;
  }

  lemma AcquireSpends(e: Setup, s: State, m: Move, s': State, bound: nat)
    requires Counted(s.p) && Polite(e.id, s.view, s.p.at, s.ctx.producerDone) && AcquireStep(e, s, m, s')
    ensures !ByEnvironment(m) && Budget(s', bound) < Budget(s, bound)
  {
    AcquireNears(e, s, m, s');
    AcquireFrame(e, s, m, s');
    AcquireKeepsReady(e, s, m, s');
    hide AcquireStep, Polite;
  }

  lemma AcquireNears(e: Setup, s: State, m: Move, s': State)
    requires Polite(e.id, s.view, s.p.at, s.ctx.producerDone) && AcquireStep(e, s, m, s')
    ensures Distance(s'.p.at) < Distance(s.p.at) && !s.p.at.Reading? && !Ended(s.p.at) && !s.p.at.Publishing?
  {
    hide Asked;
  }

  lemma AcquireKeepsReady(e: Setup, s: State, m: Move, s': State)
    requires AcquireStep(e, s, m, s') && Polite(e.id, s.view, s.p.at, s.ctx.producerDone)
    ensures s'.q == s.q && s'.c == s.c && s'.ctx == s.ctx
  {
    AcquireFrame(e, s, m, s');
  }

  lemma ServeSpends(e: Setup, s: State, m: Move, s': State, bound: nat)
    requires Ordered(s) && ServeStep(e, s, m, s') && !s'.broken
    ensures !ByEnvironment(m) && Budget(s', bound) < Budget(s, bound)
  {
    ServeFrame(e, s, m, s');
    hide Contents, Deliver, Released, Counted, LengthsOk, Awake, Settled, ProducerBudget;
  }

  lemma CancelProducerSpends(p: Producer, ctx: Contexts, bound: nat)
    requires Counted(p)
    ensures ProducerBudget(p, ctx.(producerDone := true), bound) <= ProducerBudget(p, ctx, bound)
  {
  }

  /** Each cleanup step lowers the consumer's own part by more than it can add elsewhere. */
  lemma CleanNears(e: Setup, s: State, m: Move, s': State)
    requires CleanStep(e, s, m, s')
    ensures s'.p == s.p && (s'.ctx.producerDone == s.ctx.producerDone || s'.ctx == s.ctx.(producerDone := true))
    ensures 5 * |s'.q.items| + (if s'.q.notify then 2 else 0) + ConsumerBudget(s'.c.at)
          < 5 * |s.q.items| + (if s.q.notify then 2 else 0) + ConsumerBudget(s.c.at)
    ensures !ByEnvironment(m)
  {
    hide Released, Withdrawn;
  }

  lemma CleanSpends(e: Setup, s: State, m: Move, s': State, bound: nat)
    requires Ordered(s) && CleanStep(e, s, m, s')
    ensures !ByEnvironment(m) && Budget(s', bound) < Budget(s, bound)
  {
    CleanNears(e, s, m, s');
    CancelProducerSpends(s.p, s.ctx, bound);
    hide CleanStep, Counted, LengthsOk, Awake, Settled, Paced, ConsumerBudget;
    assert ProducerBudget(s'.p, s'.ctx, bound) <= ProducerBudget(s.p, s.ctx, bound);
  }

  /** Every step of a goroutine spends some of the budget; the environment adds nothing to it. */
  lemma StepSpends(e: Setup, s: State, m: Move, s': State, bound: nat)
    requires Inv(e, s) && Bounded(e, s, bound) && Step(e, s, m, s')
    ensures !ByEnvironment(m) ==> Budget(s', bound) < Budget(s, bound)
    ensures ByEnvironment(m) && !m.Cancel? ==> Budget(s', bound) == Budget(s, bound) && Bounded(e, s', bound)
  {
    InvSpends(e, s);
    StepKeepsInv(e, s, m, s');
    hide Inv, Budget, Polite, Keeps, Counted, Ordered, Paced, Bounded, ReaderStep, AcquireStep, ServeStep, CleanStep,
        EnvironmentStep;
    if ReaderStep(e, s, m, s') {
      ReaderSpends(e, s, m, s', bound);
    } else if AcquireStep(e, s, m, s') {
      AcquireSpends(e, s, m, s', bound);
    } else if ServeStep(e, s, m, s') {
      InvSpends(e, s');
      ServeSpends(e, s, m, s', bound);
    } else if CleanStep(e, s, m, s') {
      CleanSpends(e, s, m, s', bound);
    } else {
      EnvironmentSpends(e, s, m, s', bound);
    }
  }

  lemma InvSpends(e: Setup, s: State)
    requires Inv(e, s)
    ensures Ordered(s) && Counted(s.p) && Polite(e.id, s.view, s.p.at, s.ctx.producerDone) && Keeps(e, s.p, s.ctx) && !s.broken
    ensures Paced(s.c.at, s.c.got.end, s.q.closing, s.ctx)
  {
  }

  lemma ReaderSpends(e: Setup, s: State, m: Move, s': State, bound: nat)
    requires Keeps(e, s.p, s.ctx) && Ordered(s) && Polite(e.id, s.view, s.p.at, s.ctx.producerDone)
    requires Bounded(e, s, bound) && ReaderStep(e, s, m, s')
    ensures !ByEnvironment(m) && Budget(s', bound) < Budget(s, bound)
  {
    if m.Read? {
      hide Budget, Keeps, Bounded, Paced, Counted;
      ReadSpends(e, s, m.r, s', bound);
    } else {
      HandOnSpends(e, s, m, s', bound);
    }
  }

  lemma EnvironmentSpends(e: Setup, s: State, m: Move, s': State, bound: nat)
    requires Bounded(e, s, bound) && EnvironmentStep(e, s, m, s')
    ensures ByEnvironment(m)
    ensures !m.Cancel? ==> Budget(s', bound) == Budget(s, bound) && Bounded(e, s', bound)
  {
    hide Granted, Mine, Produced;
  }

  /** How many of the moves belong to the two goroutines. */
  function Work(moves: seq<Move>): nat {
    if |moves| == 0 then 0 else Work(moves[..|moves| - 1]) + (if ByEnvironment(moves[|moves| - 1]) then 0 else 1)
  }

  ghost predicate NeverCancelled(moves: seq<Move>) {
    forall i :: 0 <= i < |moves| ==> !moves[i].Cancel?
  }

  lemma OnlyCancelCancels(e: Setup, s: State, m: Move, s': State)
    requires Step(e, s, m, s') && !m.Cancel? && s.ctx.done.None?
    ensures s'.ctx.done.None?
  {
    hide Contents, Deliver, Released, Asked, Granted, Mine, AcquireStep, ReaderStep, ServeStep, CleanStep;
    if ReaderStep(e, s, m, s') {
      ReaderLeavesConsumer(e, s, m, s');
    } else if AcquireStep(e, s, m, s') {
      AcquireLeavesConsumer(e, s, m, s');
    } else if ServeStep(e, s, m, s') {
      ServeFrame(e, s, m, s');
    } else if CleanStep(e, s, m, s') {
      CleanFrame(e, s, m, s');
    }
  }

  /** A script that ends by read `bound` lets an uncancelled copy take only so many steps. */
  lemma {:induction false} UncancelledCopyEnds(e: Setup, states: seq<State>, moves: seq<Move>, bound: nat)
    requires Run(e, states, moves) && NeverCancelled(moves)
    requires Produced(e.read, e.expected, bound).done
    ensures states[|moves|].ctx.done.None?
    ensures Work(moves) + Budget(states[|moves|], bound) <= 3102 + 100 * bound
    decreases |moves|
  {
    hide Step, Inv, Budget, Produced;
    var n := |moves|;
    if n == 0 {
      InitialBudget(states[0], bound);
    } else {
      var before, last := states[n - 1], moves[n - 1];
      assert Run(e, states[..n], moves[..n - 1]);
      UncancelledCopyEnds(e, states[..n], moves[..n - 1], bound);
      assert Step(e, states[n - 1], moves[n - 1], states[n - 1 + 1]);
      RunKeepsInv(e, states, moves, n - 1);
      StepSpends(e, before, last, states[n], bound);
      OnlyCancelCancels(e, before, last, states[n]);
    }
  }

  lemma InitialBudget(s: State, bound: nat)
    requires s == Initial(s.mem)
    ensures Budget(s, bound) <= 3102 + 100 * bound
  {
  }

  // ---- after a cancellation -------------------------------------------------------------------

  /** Steps the consumer has left before it waits for the producer. */
  function Urgency(at: ConsumerAt): nat {
    match at
    case Writing(_) => 8
    case Returning(_) => 7
    case Parked => 6
    case Next => 5
    case ClosingQueue => 4
    case CancelingProducer => 3
    case CancelingRequest => 2
    case ClosingSource => 1
    case _ => 0
  }

  /** Once the context is done, each step of the consumer brings it nearer to its cleanup and nobody else
      holds it up: it can always go on until it waits for the producer, with the queue closed. */
  lemma CancelledConsumerHurries(e: Setup, s: State, m: Move, s': State)
    requires Inv(e, s) && s.ctx.done.Some? && Step(e, s, m, s')
    ensures Urgency(s'.c.at) <= Urgency(s.c.at)
    ensures (ServeStep(e, s, m, s') || CleanStep(e, s, m, s')) && Urgency(s.c.at) > 0 ==> Urgency(s'.c.at) < Urgency(s.c.at)
    ensures Urgency(s.c.at) == 0 ==> s.q.closing && s.ctx.producerDone && Bounded(e, s, 0)
  {
    InvSpends(e, s);
    hide Inv, ReaderStep, AcquireStep, ServeStep, CleanStep;
    if ReaderStep(e, s, m, s') {
      ReaderLeavesConsumer(e, s, m, s');
    } else if AcquireStep(e, s, m, s') {
      AcquireLeavesConsumer(e, s, m, s');
    } else if ServeStep(e, s, m, s') {
      ServeHurries(e, s, m, s');
    } else if CleanStep(e, s, m, s') {
      CleanHurries(e, s, m, s');
    }
    Disjoint(e, s, m, s');
  }

  lemma Disjoint(e: Setup, s: State, m: Move, s': State)
    ensures ServeStep(e, s, m, s') || CleanStep(e, s, m, s') ==> !ReaderStep(e, s, m, s')
    ensures ServeStep(e, s, m, s') || CleanStep(e, s, m, s') ==> !AcquireStep(e, s, m, s') && !EnvironmentStep(e, s, m, s')
    ensures !(ServeStep(e, s, m, s') && CleanStep(e, s, m, s'))
  {
    hide StepRead, StepPublish, StepDrop, StepAnnounce, StepTake, StepWrite, StepReturn, StepDrain, StepGrant,
        StepScribble;
  }

  lemma ServeHurries(e: Setup, s: State, m: Move, s': State)
    requires ServeStep(e, s, m, s') && s.ctx.done.Some?
    ensures Urgency(s'.c.at) < Urgency(s.c.at)
  {
    hide Contents, Deliver, Released;
  }

  lemma CleanHurries(e: Setup, s: State, m: Move, s': State)
    requires CleanStep(e, s, m, s')
    ensures Urgency(s'.c.at) < Urgency(s.c.at) || Urgency(s.c.at) == Urgency(s'.c.at) == 0
  {
    hide Released;
  }

  /** A cancelled consumer that has not reached its wait can take its next step. */
  lemma CancelledConsumerCanMove(e: Setup, s: State)
    requires Inv(e, s) && s.ctx.done.Some? && Urgency(s.c.at) > 0
    ensures ConsumerCanMove(e, s)
  {
    InvSpends(e, s);
    hide Inv, ConsumerCanMove;
    if s.c.at.Next? || s.c.at.Returning? || s.c.at.Writing? || s.c.at.Parked? {
      ServerCanMove(e, s);
    } else {
      CleanerCanMove(e, s);
    }
  }

  // ---- from a cancellation to the return ------------------------------------------------------

  /** Steps that a producer whose context is done may take before its next read, with that read's empty
      repetitions, or before its end. */
  function Reserve(p: Producer): nat {
    match p.at
    case Reading(_) => 4 + (if p.emptyReads < 100 then 100 - p.emptyReads else 0)
    case Publishing(_, _, _) => 3
    case Dropping(_, _) => 2
    case Announcing(_) => 1
    case TryingBase => 2
    case CheckingContext => 1
    case Asking => 109
    case RetryingBase => 108
    case GivingBack => 105
    case TryingNotify => 107
    case Waiting => 106
    case Accepting => 105
    case Withdrawing => 1
    case Finished => 0
  }

  /** How often a base buffer may still become ready: each time lets such a producer read once more. */
  function Chances(ready: bool, at: ConsumerAt): nat {
    One(ready) + One(at.Writing? || at.Returning?)
  }

  function ProducerReserve(p: Producer, producerDone: bool, ready: bool, at: ConsumerAt): nat {
    if !producerDone then 330
    else if p.at.Finished? then 0
    else Reserve(p) + 110 * Chances(ready, at)
  }

  function QueueReserve(q: Queue): nat {
    5 * |q.items| + (if q.notify then 2 else 0)
  }

  /** What a cancelled copy may still do. */
  function CancelBudget(s: State): nat {
    10 * ProducerReserve(s.p, s.ctx.producerDone, s.ready, s.c.at) + QueueReserve(s.q) + ConsumerBudget(s.c.at)
  }

  lemma ReaderSpendsReserve(e: Setup, s: State, m: Move, s': State)
    requires ReaderStep(e, s, m, s') && Counted(s.p) && Polite(e.id, s.view, s.p.at, s.ctx.producerDone)
    ensures s'.ready == s.ready && Reserve(s'.p) < Reserve(s.p) && !s.p.at.Finished?
    ensures QueueReserve(s'.q) <= QueueReserve(s.q) + 7
  {
    hide Contents, Released;
  }

  lemma AcquireSpendsReserve(e: Setup, s: State, m: Move, s': State)
    requires AcquireStep(e, s, m, s') && Polite(e.id, s.view, s.p.at, s.ctx.producerDone) && s.ctx.producerDone
    ensures !s.p.at.Finished? && Reserve(s.p) > 0
    ensures s'.p.at.Finished? || Reserve(s'.p) + 110 * One(s'.ready) < Reserve(s.p) + 110 * One(s.ready)
  {
    hide Asked, Accept, Withdrawn;
  }

  /** A producer step of a cancelled copy spends from the reserve once the producer's context is done; before
      that it only adds to the queue. */
  lemma ProducerCharges(e: Setup, s: State, m: Move, s': State)
    requires Counted(s.p) && Polite(e.id, s.view, s.p.at, s.ctx.producerDone)
    requires ReaderStep(e, s, m, s') || AcquireStep(e, s, m, s')
    ensures CancelBudget(s') <= CancelBudget(s) + (if s.ctx.producerDone then -1 else 7)
    ensures s'.ctx == s.ctx
  {
    hide ReaderStep, AcquireStep, Reserve, ConsumerBudget, Polite, Counted, QueueReserve;
    if ReaderStep(e, s, m, s') {
      ReaderLeavesConsumer(e, s, m, s');
      ReaderSpendsReserve(e, s, m, s');
    } else {
      AcquireLeavesConsumer(e, s, m, s');
      AcquireFrame(e, s, m, s');
      if s.ctx.producerDone {
        AcquireSpendsReserve(e, s, m, s');
      }
    }
  }

  lemma ServeSpendsReserve(e: Setup, s: State, m: Move, s': State)
    requires ServeStep(e, s, m, s') && s.ctx.done.Some? && !s'.broken
    ensures Chances(s'.ready, s'.c.at) <= Chances(s.ready, s.c.at)
    ensures QueueReserve(s'.q) + ConsumerBudget(s'.c.at) < QueueReserve(s.q) + ConsumerBudget(s.c.at)
  {
    hide Contents, Deliver, Released;
  }

  lemma ServeCharges(e: Setup, s: State, m: Move, s': State)
    requires ServeStep(e, s, m, s') && s.ctx.done.Some? && !s'.broken
    ensures CancelBudget(s') < CancelBudget(s) && s'.ctx == s.ctx
  {
    ServeFrame(e, s, m, s');
    ServeSpendsReserve(e, s, m, s');
    hide ServeStep, QueueReserve, ConsumerBudget, Chances, Reserve;
  }

  lemma CleanReady(e: Setup, s: State, m: Move, s': State)
    requires CleanStep(e, s, m, s')
    ensures s'.ready == s.ready || s.c.at.Draining?
    ensures !s.c.at.Writing? && !s.c.at.Returning? && !s'.c.at.Writing? && !s'.c.at.Returning?
  {
    hide Released, Withdrawn;
  }

  lemma ReserveIsSmall(p: Producer)
    ensures Reserve(p) <= 109
  {
  }

  lemma CleanCharges(e: Setup, s: State, m: Move, s': State)
    requires CleanStep(e, s, m, s') && Paced(s.c.at, s.c.got.end, s.q.closing, s.ctx) && Settled(s.c.at, s.p.at, s.q.items)
    ensures CancelBudget(s') < CancelBudget(s) && s'.ctx.done == s.ctx.done
  {
    CleanNears(e, s, m, s');
    CleanFrame(e, s, m, s');
    CleanReady(e, s, m, s');
    ReserveIsSmall(s.p);
    hide CleanStep, ConsumerBudget, Reserve;
  }

  lemma EnvironmentCharges(e: Setup, s: State, m: Move, s': State)
    requires EnvironmentStep(e, s, m, s') && s.ctx.done.Some?
    ensures CancelBudget(s') <= CancelBudget(s) && s'.ctx.done == s.ctx.done && ByEnvironment(m)
  {
    ReserveIsSmall(s.p);
    hide Granted, Mine, ConsumerBudget, Reserve;
  }

  predicate ByProducer(m: Move) {
    m.Read? || m.Publish? || m.Drop? || m.Announce? || m.TryBase? || m.CheckContext? || m.Ask? || m.RetryBase?
    || m.GiveBack? || m.TryNotify? || m.WaitDone? || m.WaitBase? || m.WaitNotify? || m.AcceptGrant? || m.Withdraw?
  }

  lemma ProducersMoves(e: Setup, s: State, m: Move, s': State)
    requires Step(e, s, m, s')
    ensures ByProducer(m) <==> ReaderStep(e, s, m, s') || AcquireStep(e, s, m, s')
    ensures ByEnvironment(m) <==> EnvironmentStep(e, s, m, s')
  {
    hide StepRead, StepPublish, StepDrop, StepAnnounce, StepTake, StepWrite, StepReturn, StepDrain, StepGrant, StepScribble;
    hide StepTryBase, StepCheckContext, StepAsk, StepRetryBase, StepGiveBack, StepTryNotify, StepAccept, StepWithdraw;
  }

  /** A producer step that its context could not have stopped yet. */
  predicate Unheard(s: State, m: Move) {
    ByProducer(m) && !s.ctx.producerDone
  }

  lemma StepCharges(e: Setup, s: State, m: Move, s': State)
    requires Inv(e, s) && s.ctx.done.Some? && Step(e, s, m, s')
    ensures s'.ctx.done.Some?
    ensures var work := if ByEnvironment(m) then 0 else 1;
      CancelBudget(s') + work <= CancelBudget(s) + (if Unheard(s, m) then 8 else 0)
  {
    InvSpends(e, s);
    StepKeepsInv(e, s, m, s');
    InvSpends(e, s');
    ProducersMoves(e, s, m, s');
    hide Inv, CancelBudget, Polite, Keeps, Counted, Paced, ReaderStep, AcquireStep, ServeStep, CleanStep, EnvironmentStep;
    if ReaderStep(e, s, m, s') || AcquireStep(e, s, m, s') {
      ProducerCharges(e, s, m, s');
    } else if ServeStep(e, s, m, s') {
      ServeCharges(e, s, m, s');
    } else if CleanStep(e, s, m, s') {
      CleanCharges(e, s, m, s');
    } else {
      EnvironmentCharges(e, s, m, s');
    }
  }

  /** How many producer steps of a stretch of a run came before the cancellation reached the producer. */
  function CountUnheard(states: seq<State>, moves: seq<Move>, i: nat, j: nat): nat
    requires i <= j <= |moves| && |states| == |moves| + 1
    decreases j
  {
    if i == j then 0 else CountUnheard(states, moves, i, j - 1) + One(Unheard(states[j - 1], moves[j - 1]))
  }

  lemma {:induction false} CancelledStretch(e: Setup, states: seq<State>, moves: seq<Move>, i: nat, j: nat)
    requires Run(e, states, moves) && i <= j <= |moves| && states[i].ctx.done.Some?
    ensures states[j].ctx.done.Some?
    ensures Work(moves[i..j]) + CancelBudget(states[j])
         <= CancelBudget(states[i]) + 8 * CountUnheard(states, moves, i, j)
    decreases j
  {
    hide Step, Inv, CancelBudget, Unheard;
    if i < j {
      CancelledStretch(e, states, moves, i, j - 1);
      assert moves[i..j][..j - 1 - i] == moves[i..j - 1];
      RunKeepsInv(e, states, moves, j - 1);
      assert Step(e, states[j - 1], moves[j - 1], states[j - 1 + 1]);
      StepCharges(e, states[j - 1], moves[j - 1], states[j]);
    } else {
      assert moves[i..j] == [];
    }
  }

  lemma CancelBudgetBound(s: State)
    ensures CancelBudget(s) <= 3406 + 5 * |s.q.items|
  {
    ReserveIsSmall(s.p);
    hide Reserve;
  }

  /** From a cancellation on, the goroutines take at most 3406 steps, five more for each event queued then and
      eight more for each step that the producer took before the cancellation reached its own context; and
      when neither can go on, the copy has returned. */
  lemma CancelledCopyReturns(e: Setup, states: seq<State>, moves: seq<Move>, i: nat)
    requires Run(e, states, moves) && i <= |moves| && states[i].ctx.done.Some?
    ensures Work(moves[i..])
         <= 3406 + 5 * |states[i].q.items| + 8 * CountUnheard(states, moves, i, |moves|)
    ensures CanMove(e, states[|moves|]) || states[|moves|].c.at.Returned?
  {
    hide Step, Inv, CanMove;
    CancelledStretch(e, states, moves, i, |moves|);
    assert moves[i..|moves|] == moves[i..];
    CancelBudgetBound(states[i]);
    NoDeadlock(e, states, moves);
  }

  // ---- total correctness ----------------------------------------------------------------------

  /** Without a cancellation and with a script that ends by read `bound`, every run takes at most
      100 bound + 3102 steps of its goroutines, and one that neither can extend has returned what the
      sequential copy of those reads returns. */
  lemma UncancelledCopyReturns(e: Setup, states: seq<State>, moves: seq<Move>, bound: nat)
    requires Run(e, states, moves) && NeverCancelled(moves) && Produced(e.read, e.expected, bound).done
    ensures Work(moves) <= 3102 + 100 * bound
    ensures Sequential(e.read, e.write, e.expected, bound).Stopped?
    ensures !CanMove(e, states[|moves|]) ==>
      var s := states[|moves|];
      s.c.at.Returned? && s.c.got.end.Some? && SameOutcome(s, Sequential(e.read, e.write, e.expected, bound))
  {
    SequentialIsComposition(e.read, e.write, e.expected, bound);
    assert |states| == |moves| + 1;
    hide Step, Inv, Budget, CanMove, SameOutcome, Produced, Sequential, Run;
    UncancelledCopyEnds(e, states, moves, bound);
    NoDeadlock(e, states, moves);
    if !CanMove(e, states[|moves|]) {
      UncancelledCopyIsSequential(e, states, moves);
    }
  }
}

/**
 Any number of buffered copies on one allocator and in one memory, each of which runs as if it were alone.
 */
module BufferedCopySharing {
  import opened Wrappers
  import Pool = MediaBufferModel
  import opened MediaBufferInvariant
  import opened MediaBufferOperations
  import opened MediaBufferClose
  import opened MediaBufferRuns
  import opened MediaCopy
  import opened BufferedCopyModel
  import Copy = BufferedCopyInvariant
  import Results = BufferedCopyResults
  import opened BufferedCopyAllocator
  import opened BufferedCopyJoint

  // To every copy the turns of the others are the grants and the foreign writes that its own runs allow for.

  /** A copy under way, with the turns its goroutines took and whether it was cancelled. */
  datatype Job = Job(setup: Setup, state: State, work: nat, canceled: bool)

  /** The allocator, the bytes of its chunks, and the copies under way by the ids of their requests. */
  datatype Plant = Plant(pool: Pool.Pool, chunks: Memory, jobs: map<nat, Job>)

  /** A request is registered and its copy begins with a base buffer of its own; a copy takes a turn; a request
      whose copy has returned is closed. */
  datatype Action = Start(setup: Setup, base: seq<Byte>) | Advance(id: nat, turn: Turn) | Finish(id: nat, order: seq<nat>)

  // ---- memory ---------------------------------------------------------------------------------

  /** The part of a copy's memory that is in the allocator's chunks. */
  function ChunksOf(mem: Memory): Memory {
    map x | x in mem && x.Shared? :: mem[x]
  }

  /** A copy's own base buffer, and the chunks as they are now. */
  function Over(mem: Memory, chunks: Memory): Memory {
    (map x | x in mem && x.Private? :: mem[x]) + chunks
  }

  lemma OverOwnChunks(mem: Memory)
    ensures Over(mem, ChunksOf(mem)) == mem
  {
  }

  lemma ChunksOfOver(mem: Memory, other: Memory)
    ensures ChunksOf(Over(mem, ChunksOf(other))) == ChunksOf(other)
  {
  }

  // ---- steps ----------------------------------------------------------------------------------

  /** A copy as it finds itself after somebody else's turn. */
  function Found(y: nat, job: Job, pool: Pool.Pool, chunks: Memory): Job
    requires y in pool.reqs
  {
    job.(state := job.state.(view := ViewOf(pool.reqs[y]), mem := Over(job.state.mem, chunks)))
  }

  ghost predicate OthersFind(s: Plant, s': Plant, x: nat) {
    forall y :: y in s.jobs && y != x ==>
      y in s'.jobs && y in s'.pool.reqs && s'.jobs[y] == Found(y, s.jobs[y], s'.pool, s'.chunks)
  }

  function Worked(job: Job, t: Turn, s': State): Job {
    Job(job.setup, s', if t.Own? then job.work + 1 else job.work, job.canceled || (t.World? && t.move.Cancel?))
  }

  /** A turn of a copy itself, or of its contexts. Nobody writes into memory but through a copy's turn. */
  predicate OfCopy(t: Turn) {
    t.Own? || (t.World? && !t.move.Scribble?)
  }

  ghost predicate StepStart(s: Plant, e: Setup, base: seq<Byte>, s': Plant) {
    && Steady(s.pool) && e.id == s.pool.nextRequestID + 1
    && s'.pool == Apply(s.pool, OpRegister).0 && s'.chunks == s.chunks
    && s'.jobs.Keys == s.jobs.Keys + {e.id}
    && s'.jobs[e.id] == Job(e, Initial(s.chunks[Private := base]), 0, false)
    && OthersFind(s, s', e.id)
  }

  ghost predicate StepAdvance(s: Plant, x: nat, t: Turn, s': Plant) {
    && x in s.jobs && s'.jobs.Keys == s.jobs.Keys && OfCopy(t)
    && OthersFind(s, s', x)
    && var job, job' := s.jobs[x], s'.jobs[x];
      && OnPool(job.setup, Joint(s.pool, job.state))
      && TurnStep(job.setup, Joint(s.pool, job.state), t, Joint(s'.pool, job'.state))
      && job' == Worked(job, t, job'.state)
      && s'.chunks == ChunksOf(job'.state.mem)
  }

  ghost predicate StepFinish(s: Plant, x: nat, order: seq<nat>, s': Plant) {
    && Steady(s.pool) && x in s.jobs && s.jobs[x].state.c.at.Returned? && Enabled(s.pool, OpClose(x, order))
    && s'.pool == Apply(s.pool, OpClose(x, order)).0 && s'.chunks == s.chunks
    && s'.jobs.Keys == s.jobs.Keys - {x}
    && OthersFind(s, s', x)
  }

  ghost predicate PlantStep(s: Plant, a: Action, s': Plant) {
    match a
    case Start(e, base) => StepStart(s, e, base, s')
    case Advance(x, t) => StepAdvance(s, x, t, s')
    case Finish(x, order) => StepFinish(s, x, order, s')
  }

  /** From an empty allocator on, whatever copies come and go. */
  ghost predicate PlantRun(states: seq<Plant>, actions: seq<Action>) {
    && |states| == |actions| + 1
    && Pool.ValidBudget(states[0].pool.hardBudget)
    && states[0] == Plant(Pool.InitialPool(states[0].pool.hardBudget), map[], map[])
    && forall i :: 0 <= i < |actions| ==> PlantStep(states[i], actions[i], states[i + 1])
  }

  // ---- a copy's own joint run -----------------------------------------------------------------

  ghost predicate ReachedBy(e: Setup, j: Joint, work: nat, canceled: bool, js: seq<Joint>, turns: seq<Turn>) {
    && |js| == |turns| + 1 && js[|turns|] == j && OwnTurns(turns) == work && (!canceled ==> NoCancel(turns))
    && JointRun(e, js, turns)
  }

  /** Some run of this copy and the pool, with any other requests on it, comes to `j`. */
  ghost predicate Reached(e: Setup, j: Joint, work: nat, canceled: bool) {
    exists js, turns :: ReachedBy(e, j, work, canceled, js, turns)
  }

  lemma ReachedIs(e: Setup, j: Joint, work: nat, canceled: bool)
    requires Reached(e, j, work, canceled)
    ensures OnPool(e, j) && Copy.Inv(e, j.copy)
  {
    hide JointRun, OnPool, Copy.Inv, OwnTurns, NoCancel;
    var js, turns :| ReachedBy(e, j, work, canceled, js, turns);
    JointRunKeepsRelation(e, js, turns, |turns|);
  }

  lemma RegisterIs(s: Pool.Pool)
    requires Steady(s)
    ensures Pool.Registered(s) && Pool.WaitersKnown(s) && Enabled(s, OpRegister)
    ensures Apply(s, OpRegister).0 == Pool.Register(s)
  {
    ReadyFor(s, OpRegister);
    hide Steady, Pool.Register;
  }

  lemma ReachedStarts(e: Setup, s: Pool.Pool, mem: Memory)
    requires Steady(s) && e.id == s.nextRequestID + 1
    ensures Reached(e, Joint(Apply(s, OpRegister).0, Initial(mem)), 0, false)
  {
    hide *;
    var j := JointRunBegins(e, s, mem);
    RegisterIs(s);
    assert j.pool == Pool.Register(s) by { RegistersIs(s, e.id, j.pool); }
    BegunIsReached(e, j);
  }

  lemma RegistersIs(s: Pool.Pool, id: nat, p: Pool.Pool)
    requires Registers(s, id, p)
    ensures Pool.Registered(s) && Pool.WaitersKnown(s) && p == Pool.Register(s)
  {
    hide Pool.Register;
  }

  lemma BegunIsReached(e: Setup, j: Joint)
    requires JointRun(e, [j], []) && NoCancel([])
    ensures Reached(e, j, 0, false)
  {
    hide JointRun;
    NoTurns([]);
    assert ReachedBy(e, j, 0, false, [j], []);
  }

  lemma ReachedTurn(e: Setup, j: Joint, work: nat, canceled: bool, t: Turn, j': Joint)
    requires OnPool(e, j) && TurnStep(e, j, t, j') && Reached(e, j, work, canceled)
    ensures Reached(e, j', if t.Own? then work + 1 else work, canceled || (t.World? && t.move.Cancel?))
  {
    hide JointRun, OnPool, TurnStep, OwnTurns, NoCancel;
    var js, turns :| ReachedBy(e, j, work, canceled, js, turns);
    JointRunExtends(e, js, turns, t, j');
    CancelCounts(turns, t);
    assert ReachedBy(e, j', if t.Own? then work + 1 else work, canceled || (t.World? && t.move.Cancel?), js + [j'],
                     turns + [t]);
  }

  lemma OtherTurn(e: Setup, j: Joint, op: Op)
    requires OnPool(e, j) && Enabled(j.pool, op) && Subject(op) != e.id
    ensures var p := Apply(j.pool, op).0;
      e.id in p.reqs && TurnStep(e, j, Turn.Other(op), Joint(p, j.copy.(view := ViewOf(p.reqs[e.id]))))
  {
    hide Steady, Apply, Enabled, Step;
    OthersAreGrants(e, j, op);
  }

  lemma PoolOfJoint(e: Setup, j: Joint)
    requires OnPool(e, j)
    ensures Steady(j.pool) && e.id in j.pool.reqs && j.copy.view == ViewOf(j.pool.reqs[e.id])
  {
    hide Steady;
  }

  /** An operation of another request, to a copy. */
  lemma ReachedOther(e: Setup, j: Joint, work: nat, canceled: bool, op: Op)
    requires Reached(e, j, work, canceled) && Steady(j.pool) && Enabled(j.pool, op) && Subject(op) != e.id
    ensures var p := Apply(j.pool, op).0;
      e.id in p.reqs && Reached(e, Joint(p, j.copy.(view := ViewOf(p.reqs[e.id]))), work, canceled)
  {
    hide *;
    ReachedIs(e, j, work, canceled);
    OtherTurn(e, j, op);
    var p := Apply(j.pool, op).0;
    ReachedTurn(e, j, work, canceled, Turn.Other(op), Joint(p, j.copy.(view := ViewOf(p.reqs[e.id]))));
  }

  /** Nothing that is this copy's own changed. */
  ghost predicate LeavesMine(s: State, mem: Memory) {
    forall x: Slot :: Mine(s, x) ==> ((x in mem <==> x in s.mem) && (x in s.mem ==> mem[x] == s.mem[x]))
  }

  lemma ScribbleIsStep(e: Setup, s: State, mem: Memory)
    requires LeavesMine(s, mem)
    ensures Step(e, s, Scribble, s.(mem := mem))
  {
    hide ReaderStep, AcquireStep, ServeStep, CleanStep, Mine;
    assert EnvironmentStep(e, s, Scribble, s.(mem := mem));
  }

  lemma ScribbleTurn(e: Setup, j: Joint, mem: Memory)
    requires OnPool(e, j) && LeavesMine(j.copy, mem)
    ensures TurnStep(e, j, World(Scribble), Joint(j.pool, j.copy.(mem := mem)))
  {
    hide Step, LeavesMine, Steady;
    ScribbleIsStep(e, j.copy, mem);
  }

  /** Writes of others, to a copy. */
  lemma ReachedScribble(e: Setup, j: Joint, work: nat, canceled: bool, mem: Memory)
    requires Reached(e, j, work, canceled) && LeavesMine(j.copy, mem)
    ensures Reached(e, Joint(j.pool, j.copy.(mem := mem)), work, canceled)
  {
    hide *;
    ReachedIs(e, j, work, canceled);
    ScribbleTurn(e, j, mem);
    ReachedTurn(e, j, work, canceled, World(Scribble), Joint(j.pool, j.copy.(mem := mem)));
  }

  // ---- the invariant --------------------------------------------------------------------------

  /** A request without a copy holds and wants nothing. */
  predicate Idle(v: View) {
    !v.waiting && v.pending.None? && v.accepted == map[]
  }

  ghost predicate JobOk(pool: Pool.Pool, chunks: Memory, y: nat, job: Job) {
    && job.setup.id == y && y != 0 && ChunksOf(job.state.mem) == chunks
    && Reached(job.setup, Joint(pool, job.state), job.work, job.canceled)
  }

  ghost predicate PlantInv(s: Plant) {
    && Steady(s.pool) && ChunksOf(s.chunks) == s.chunks
    && (forall y :: y in s.jobs ==> y in s.pool.reqs && JobOk(s.pool, s.chunks, y, s.jobs[y]))
    && (forall x :: x in s.pool.reqs && x !in s.jobs ==> Idle(ViewOf(s.pool.reqs[x])))
  }

  /** Another request's operation that writes nothing keeps a job in order. */
  lemma OtherKeepsJob(s: Pool.Pool, chunks: Memory, y: nat, job: Job, op: Op)
    requires Steady(s) && Enabled(s, op) && Subject(op) != y && JobOk(s, chunks, y, job)
    ensures var p := Apply(s, op).0; y in p.reqs && JobOk(p, chunks, y, Found(y, job, p, chunks))
  {
    hide Reached, Steady, Apply, Enabled, ChunksOf, Over;
    ReachedOther(job.setup, Joint(s, job.state), job.work, job.canceled, op);
    OverOwnChunks(job.state.mem);
  }

  lemma IdleStays(s: Pool.Pool, op: Op, x: nat)
    requires Steady(s) && Enabled(s, op) && x != Subject(op) && x in Apply(s, op).0.reqs
    requires x in s.reqs ==> Idle(ViewOf(s.reqs[x]))
    ensures Steady(Apply(s, op).0) && Idle(ViewOf(Apply(s, op).0.reqs[x]))
  {
    hide Apply, Steady, Enabled;
    ApplyKeepsSteady(s, op);
  }

  // ---- a copy's turn, as the others find it ---------------------------------------------------

  /** The memory after the producer has read into the buffer in its hand. */
  ghost predicate ReadInto(s: State, mem: Memory) {
    s.p.at.Reading? && SlotOf(s.p.at.cur) in mem && mem == s.mem[SlotOf(s.p.at.cur) := mem[SlotOf(s.p.at.cur)]]
  }

  lemma ReaderWrites(e: Setup, s: State, m: Move, s': State)
    requires ReaderStep(e, s, m, s')
    ensures s'.mem == s.mem || (ReadInto(s, s'.mem) && m.Read?)
  {
    hide AfterRead, ReadBy, Contents, Released, Good, Enqueue;
  }

  lemma AcquireWritesNothing(e: Setup, s: State, m: Move, s': State)
    requires AcquireStep(e, s, m, s')
    ensures s'.mem == s.mem
  {
    hide Asked, Accept;
  }

  lemma ConsumerWritesNothing(e: Setup, s: State, m: Move, s': State)
    requires ServeStep(e, s, m, s') || CleanStep(e, s, m, s')
    ensures s'.mem == s.mem
  {
    hide Contents, Released, Good, Deliver;
  }

  lemma WorldWritesNothing(e: Setup, s: State, m: Move, s': State)
    requires EnvironmentStep(e, s, m, s') && !m.Scribble?
    ensures s'.mem == s.mem
  {
    hide Granted;
  }

  /** A step of a copy writes only what its producer reads. */
  lemma GoroutineWrites(e: Setup, s: State, m: Move, s': State)
    requires Step(e, s, m, s') && !m.Scribble?
    ensures s'.mem == s.mem || (ReadInto(s, s'.mem) && m.Read?)
  {
    hide ReaderStep, AcquireStep, ServeStep, CleanStep, EnvironmentStep, ReadInto;
    if ReaderStep(e, s, m, s') {
      ReaderWrites(e, s, m, s');
    } else if AcquireStep(e, s, m, s') {
      AcquireWritesNothing(e, s, m, s');
    } else if ServeStep(e, s, m, s') || CleanStep(e, s, m, s') {
      ConsumerWritesNothing(e, s, m, s');
    } else {
      WorldWritesNothing(e, s, m, s');
    }
  }

  /** A turn calls the allocator, or it writes, or neither. */
  ghost predicate CallsOrWrites(e: Setup, j: Joint, j': Joint) {
    || (j'.pool == j.pool && (j'.copy.mem == j.copy.mem || ReadInto(j.copy, j'.copy.mem)))
    || (j'.copy.mem == j.copy.mem
        && exists op :: Steady(j.pool) && Enabled(j.pool, op) && Subject(op) == e.id && j'.pool == Apply(j.pool, op).0)
  }

  lemma TurnIsSmall(e: Setup, j: Joint, t: Turn, j': Joint)
    requires OnPool(e, j) && TurnStep(e, j, t, j') && OfCopy(t)
    ensures CallsOrWrites(e, j, j')
  {
    hide Step, Steady, Apply, Enabled, ReadInto;
    GoroutineWrites(e, j.copy, t.move, j'.copy);
    if t.Own? {
      CallIsEnabled(e, j, t.move);
      CallIsOwn(e.id, j.copy, t.move);
    }
  }

  lemma JobIs(s: Plant, x: nat)
    requires PlantInv(s) && x in s.jobs
    ensures var job := s.jobs[x];
      && job.setup.id == x && ChunksOf(job.state.mem) == s.chunks
      && Reached(job.setup, Joint(s.pool, job.state), job.work, job.canceled)
      && OnPool(job.setup, Joint(s.pool, job.state)) && Copy.Inv(job.setup, job.state)
  {
    hide Reached, Steady, ChunksOf, OnPool, Copy.Inv;
    var job := s.jobs[x];
    assert JobOk(s.pool, s.chunks, x, job);
    ReachedIs(job.setup, Joint(s.pool, job.state), job.work, job.canceled);
  }

  /** The chunk that one copy reads into is none that another has accepted. */
  lemma HandsAreApart(e: Setup, pool: Pool.Pool, a: State, f: Setup, b: State)
    requires OnPool(e, Joint(pool, a)) && Copy.Inv(e, a) && OnPool(f, Joint(pool, b)) && e.id != f.id
    requires a.p.at.Reading? && a.p.at.cur.Leased?
    ensures a.p.at.cur.lease.chunk !in b.view.accepted
  {
    hide *;
    ReadingOwn(e, a);
    PoolOfJoint(e, Joint(pool, a));
    PoolOfJoint(f, Joint(pool, b));
    AcceptedIsHeld(pool.reqs[e.id]);
    AcceptedIsHeld(pool.reqs[f.id]);
    var l := a.p.at.cur.lease;
    if l.chunk in b.view.accepted {
      ChunksAreApart(pool, e.id, f.id, l.chunk, l.generation, b.view.accepted[l.chunk]);
    }
  }

  lemma AcceptedIsHeld(r: Pool.Request)
    ensures ViewOf(r).accepted == r.accepted
    ensures forall c :: c in r.accepted ==> Holds(r, c, r.accepted[c])
  {
  }

  /** What one copy reads into is nothing of another's. */
  lemma WritesAreApart(s: Plant, x: nat, y: nat, mem: Memory)
    requires PlantInv(s) && x in s.jobs && y in s.jobs && x != y
    requires mem == s.jobs[x].state.mem || ReadInto(s.jobs[x].state, mem)
    ensures LeavesMine(s.jobs[y].state, Over(s.jobs[y].state.mem, ChunksOf(mem)))
  {
    hide *;
    var a, b := s.jobs[x].state, s.jobs[y].state;
    JobIs(s, x);
    JobIs(s, y);
    if a.p.at.Reading? && a.p.at.cur.Leased? {
      HandsAreApart(s.jobs[x].setup, s.pool, a, s.jobs[y].setup, b);
    }
    SlotsLeft(a, b, mem);
  }

  lemma ReadingOwn(e: Setup, s: State)
    requires Copy.Inv(e, s) && s.p.at.Reading? && s.p.at.cur.Leased?
    ensures s.p.at.cur.lease.chunk in s.view.accepted
    ensures s.view.accepted[s.p.at.cur.lease.chunk] == s.p.at.cur.lease.generation
  {
  }

  lemma SlotsLeft(a: State, b: State, mem: Memory)
    requires ChunksOf(a.mem) == ChunksOf(b.mem)
    requires mem == a.mem || ReadInto(a, mem)
    requires a.p.at.Reading? && a.p.at.cur.Leased? ==> a.p.at.cur.lease.chunk !in b.view.accepted
    ensures LeavesMine(b, Over(b.mem, ChunksOf(mem)))
  {
    forall x: Slot | Mine(b, x)
      ensures x in Over(b.mem, ChunksOf(mem)) <==> x in b.mem
      ensures x in b.mem ==> Over(b.mem, ChunksOf(mem))[x] == b.mem[x]
    {
      if x.Shared? {
        assert x in a.mem <==> x in ChunksOf(a.mem);
        assert x in b.mem <==> x in ChunksOf(b.mem);
      }
    }
  }

  // ---- every step keeps the invariant ---------------------------------------------------------

  lemma NoRequestZero(s: Pool.Pool)
    requires Steady(s)
    ensures 0 !in s.reqs
  {
  }

  /** The steps of others, for all jobs at once. */
  ghost predicate OthersOk(s: Plant, s': Plant, x: nat) {
    forall y :: y in s.jobs && y != x ==> y in s'.pool.reqs && y in s'.jobs && JobOk(s'.pool, s'.chunks, y, s'.jobs[y])
  }

  lemma OpKeepsOthers(s: Plant, op: Op, s': Plant)
    requires PlantInv(s) && Enabled(s.pool, op) && s'.pool == Apply(s.pool, op).0 && s'.chunks == s.chunks
    requires OthersFind(s, s', Subject(op)) && forall y :: y in s.jobs && y != Subject(op) ==> y in s'.jobs
    ensures OthersOk(s, s', Subject(op))
  {
    hide Steady, Apply, Enabled, JobOk, Found, Idle, ChunksOf;
    forall y | y in s.jobs && y != Subject(op)
      ensures y in s'.pool.reqs && JobOk(s'.pool, s'.chunks, y, s'.jobs[y])
    {
      OtherKeepsJob(s.pool, s.chunks, y, s.jobs[y], op);
    }
  }

  /** Requests without a copy stay idle. */
  lemma OpKeepsIdle(s: Plant, op: Op, s': Plant)
    requires PlantInv(s) && Enabled(s.pool, op) && s'.pool == Apply(s.pool, op).0
    requires Subject(op) in s'.jobs || Subject(op) !in s'.pool.reqs || Idle(ViewOf(s'.pool.reqs[Subject(op)]))
    requires s.jobs.Keys <= s'.jobs.Keys + {Subject(op)}
    ensures forall x :: x in s'.pool.reqs && x !in s'.jobs ==> Idle(ViewOf(s'.pool.reqs[x]))
  {
    hide Steady, Apply, Enabled, JobOk, Idle, ChunksOf;
    forall x | x in s'.pool.reqs && x !in s'.jobs
      ensures Idle(ViewOf(s'.pool.reqs[x]))
    {
      if x != Subject(op) {
        IdleStays(s.pool, op, x);
      }
    }
  }

  lemma AssembleInv(s: Plant, s': Plant, x: nat)
    requires Steady(s'.pool) && ChunksOf(s'.chunks) == s'.chunks && OthersOk(s, s', x)
    requires s'.jobs.Keys <= s.jobs.Keys + {x}
    requires x in s'.jobs ==> x in s'.pool.reqs && JobOk(s'.pool, s'.chunks, x, s'.jobs[x])
    requires forall y :: y in s'.pool.reqs && y !in s'.jobs ==> Idle(ViewOf(s'.pool.reqs[y]))
    ensures PlantInv(s')
  {
    hide Steady, JobOk, Idle, ChunksOf;
  }

  lemma InvOf(s: Plant)
    requires PlantInv(s)
    ensures Steady(s.pool) && ChunksOf(s.chunks) == s.chunks && 0 !in s.jobs
    ensures forall y :: y in s.jobs ==> y in s.pool.reqs
  {
    hide Steady, JobOk, ChunksOf;
    NoRequestZero(s.pool);
  }

  lemma NewJob(s: Plant, e: Setup, base: seq<Byte>)
    requires PlantInv(s) && e.id == s.pool.nextRequestID + 1
    ensures Steady(s.pool)
    ensures var p := Apply(s.pool, OpRegister).0;
      && Steady(p) && e.id in p.reqs && e.id !in s.jobs
      && JobOk(p, s.chunks, e.id, Job(e, Initial(s.chunks[Private := base]), 0, false))
  {
    hide *;
    InvOf(s);
    var mem := s.chunks[Private := base];
    RegisterIs(s.pool);
    var p := Apply(s.pool, OpRegister).0;
    ApplyKeepsSteady(s.pool, OpRegister);
    NextIsNew(s.pool);
    ReachedStarts(e, s.pool, mem);
    ReachedIs(e, Joint(p, Initial(mem)), 0, false);
    PoolOfJoint(e, Joint(p, Initial(mem)));
    ChunksWithBase(s.chunks, base);
    JobBegins(p, s.chunks, e, mem);
  }

  lemma NextIsNew(s: Pool.Pool)
    requires Steady(s)
    ensures s.nextRequestID + 1 !in s.reqs
  {
  }

  lemma ChunksWithBase(chunks: Memory, base: seq<Byte>)
    ensures ChunksOf(chunks[Private := base]) == ChunksOf(chunks)
  {
  }

  lemma JobBegins(p: Pool.Pool, chunks: Memory, e: Setup, mem: Memory)
    requires e.id != 0 && ChunksOf(mem) == chunks && Reached(e, Joint(p, Initial(mem)), 0, false)
    ensures JobOk(p, chunks, e.id, Job(e, Initial(mem), 0, false))
  {
    hide Reached, ChunksOf;
    assert Initial(mem).mem == mem;
  }

  lemma StartKeepsInv(s: Plant, e: Setup, base: seq<Byte>, s': Plant)
    requires PlantInv(s) && StepStart(s, e, base, s')
    ensures PlantInv(s')
  {
    StartIs(s, e, base, s');
    hide *;
    NewJob(s, e, base);
    InvOf(s);
    NoRequestZero(s'.pool);
    OpKeepsOthers(s, OpRegister, s');
    OpKeepsIdle(s, OpRegister, s');
    OthersButNew(s, s', e.id);
    AssembleInv(s, s', e.id);
  }

  lemma OthersButNew(s: Plant, s': Plant, x: nat)
    requires OthersOk(s, s', 0) && 0 !in s.jobs
    ensures OthersOk(s, s', x)
  {
    hide JobOk;
  }

  lemma StartIs(s: Plant, e: Setup, base: seq<Byte>, s': Plant)
    requires PlantInv(s) && StepStart(s, e, base, s')
    ensures e.id == s.pool.nextRequestID + 1 && s'.chunks == s.chunks && Enabled(s.pool, OpRegister)
    ensures Steady(s.pool) && s'.pool == Apply(s.pool, OpRegister).0 && Subject(OpRegister) == 0
    ensures s'.jobs.Keys == s.jobs.Keys + {e.id} && s'.jobs[e.id] == Job(e, Initial(s.chunks[Private := base]), 0, false)
    ensures OthersFind(s, s', 0) && forall y :: y in s.jobs ==> y in s'.jobs
  {
    hide Steady, Apply, JobOk, PlantInv, Found, Initial;
    NewJob(s, e, base);
    InvOf(s);
  }

  lemma FinishKeepsInv(s: Plant, x: nat, order: seq<nat>, s': Plant)
    requires PlantInv(s) && StepFinish(s, x, order, s')
    ensures PlantInv(s')
  {
    FinishIs(s, x, order, s');
    hide *;
    InvOf(s);
    ApplyKeepsSteady(s.pool, OpClose(x, order));
    OpKeepsOthers(s, OpClose(x, order), s');
    OpKeepsIdle(s, OpClose(x, order), s');
    AssembleInv(s, s', x);
  }

  lemma FinishIs(s: Plant, x: nat, order: seq<nat>, s': Plant)
    requires StepFinish(s, x, order, s')
    ensures Steady(s.pool) && Enabled(s.pool, OpClose(x, order)) && s'.chunks == s.chunks && Subject(OpClose(x, order)) == x
    ensures s'.pool == Apply(s.pool, OpClose(x, order)).0 && OthersFind(s, s', x)
    ensures s'.jobs.Keys == s.jobs.Keys - {x}
    ensures x in s'.pool.reqs && Idle(ViewOf(s'.pool.reqs[x]))
  {
    hide Steady, Found, Pool.ValidOrder, Pool.Close, ViewsExcept;
    CloseSettles(s.pool, x, order);
    ApplyKeepsKnown(s.pool, OpClose(x, order), x);
  }

  lemma AdvanceIs(s: Plant, x: nat, t: Turn, s': Plant)
    requires StepAdvance(s, x, t, s')
    ensures x in s.jobs && s'.jobs.Keys == s.jobs.Keys && OthersFind(s, s', x)
    ensures var job, job' := s.jobs[x], s'.jobs[x];
      && OnPool(job.setup, Joint(s.pool, job.state))
      && TurnStep(job.setup, Joint(s.pool, job.state), t, Joint(s'.pool, job'.state))
      && CallsOrWrites(job.setup, Joint(s.pool, job.state), Joint(s'.pool, job'.state))
      && job' == Worked(job, t, job'.state) && s'.chunks == ChunksOf(job'.state.mem)
  {
    hide OnPool, TurnStep, CallsOrWrites, OthersFind, ChunksOf, Worked;
    TurnIsSmall(s.jobs[x].setup, Joint(s.pool, s.jobs[x].state), t, Joint(s'.pool, s'.jobs[x].state));
  }

  /** The job whose turn it is. */
  lemma OwnJobAdvances(s: Plant, x: nat, t: Turn, s': Plant)
    requires PlantInv(s) && StepAdvance(s, x, t, s')
    ensures x in s'.jobs && x in s'.pool.reqs && JobOk(s'.pool, s'.chunks, x, s'.jobs[x])
    ensures Steady(s'.pool) && ChunksOf(s'.chunks) == s'.chunks
  {
    hide PlantInv, StepAdvance, Reached, OnPool, TurnStep, CallsOrWrites, OthersFind, ChunksOf, Copy.Inv;
    AdvanceIs(s, x, t, s');
    JobIs(s, x);
    var job, job' := s.jobs[x], s'.jobs[x];
    ReachedTurn(job.setup, Joint(s.pool, job.state), job.work, job.canceled, t, Joint(s'.pool, job'.state));
    ReachedIs(job.setup, Joint(s'.pool, job'.state), job'.work, job'.canceled);
    PoolOfJoint(job.setup, Joint(s'.pool, job'.state));
    ChunksTwice(job'.state.mem);
    InvOf(s);
  }

  lemma ChunksTwice(mem: Memory)
    ensures ChunksOf(ChunksOf(mem)) == ChunksOf(mem)
  {
  }

  /** A turn that writes keeps the other jobs in order: what is written is nothing of theirs. */
  lemma WriteKeepsJob(s: Plant, x: nat, y: nat, s': Plant)
    requires PlantInv(s) && x in s.jobs && y in s.jobs && x != y && x in s'.jobs
    requires s'.pool == s.pool && s'.chunks == ChunksOf(s'.jobs[x].state.mem)
    requires s'.jobs[x].state.mem == s.jobs[x].state.mem || ReadInto(s.jobs[x].state, s'.jobs[x].state.mem)
    ensures y in s'.pool.reqs && JobOk(s'.pool, s'.chunks, y, Found(y, s.jobs[y], s'.pool, s'.chunks))
  {
    hide PlantInv, Reached, OnPool, ChunksOf, Over, Copy.Inv, ReadInto;
    JobIs(s, y);
    InvOf(s);
    var job, mem := s.jobs[y], s'.jobs[x].state.mem;
    PoolOfJoint(job.setup, Joint(s.pool, job.state));
    WritesAreApart(s, x, y, mem);
    ReachedScribble(job.setup, Joint(s.pool, job.state), job.work, job.canceled, Over(job.state.mem, ChunksOf(mem)));
    ChunksOfOver(job.state.mem, mem);
    assert job.state.(view := ViewOf(s.pool.reqs[y])) == job.state;
  }

  lemma AdvanceKeepsOthers(s: Plant, x: nat, t: Turn, s': Plant)
    requires PlantInv(s) && StepAdvance(s, x, t, s')
    ensures OthersOk(s, s', x)
    ensures forall y :: y in s'.pool.reqs && y !in s'.jobs ==> Idle(ViewOf(s'.pool.reqs[y]))
  {
    hide PlantInv, StepAdvance, Reached, OnPool, TurnStep, ChunksOf, Over, Copy.Inv, ReadInto, Steady, Apply, Enabled;
    hide JobOk, Idle, Found;
    AdvanceIs(s, x, t, s');
    JobIs(s, x);
    InvOf(s);
    var j, j' := Joint(s.pool, s.jobs[x].state), Joint(s'.pool, s'.jobs[x].state);
    if j'.pool == j.pool && (j'.copy.mem == j.copy.mem || ReadInto(j.copy, j'.copy.mem)) {
      forall y | y in s.jobs && y != x
        ensures y in s'.pool.reqs && y in s'.jobs && JobOk(s'.pool, s'.chunks, y, s'.jobs[y])
      {
        WriteKeepsJob(s, x, y, s');
      }
      IdleRemain(s, s');
    } else {
      var op :| Steady(j.pool) && Enabled(j.pool, op) && Subject(op) == x && j'.pool == Apply(j.pool, op).0;
      OpKeepsOthers(s, op, s');
      OpKeepsIdle(s, op, s');
    }
  }

  lemma IdleRemain(s: Plant, s': Plant)
    requires PlantInv(s) && s'.pool == s.pool && s'.jobs.Keys == s.jobs.Keys
    ensures forall y :: y in s'.pool.reqs && y !in s'.jobs ==> Idle(ViewOf(s'.pool.reqs[y]))
  {
    hide Steady, ChunksOf, JobOk, Idle;
  }

  lemma PlantStepKeepsInv(s: Plant, a: Action, s': Plant)
    requires PlantInv(s) && PlantStep(s, a, s')
    ensures PlantInv(s')
  {
    hide PlantInv, StepAdvance, StepStart, StepFinish, OthersOk, Idle, ChunksOf, JobOk, Steady;
    match a
    case Start(e, base) => StartKeepsInv(s, e, base, s');
    case Advance(x, t) =>
      AdvanceIs(s, x, t, s');
      OwnJobAdvances(s, x, t, s');
      AdvanceKeepsOthers(s, x, t, s');
      AssembleInv(s, s', x);
    case Finish(x, order) => FinishKeepsInv(s, x, order, s');
  }

  // ---- over whole runs ------------------------------------------------------------------------

  lemma EmptyPlantInv(hardBudget: int)
    requires Pool.ValidBudget(hardBudget)
    ensures PlantInv(Plant(Pool.InitialPool(hardBudget), map[], map[]))
  {
    InitialPoolInv(hardBudget);
    hide JobOk, Idle, Inv, WorkConserving;
  }

  lemma PlantRunIs(states: seq<Plant>, actions: seq<Action>, k: nat)
    requires PlantRun(states, actions)
    ensures |states| == |actions| + 1 && (k < |actions| ==> PlantStep(states[k], actions[k], states[k + 1]))
    ensures Pool.ValidBudget(states[0].pool.hardBudget)
    ensures states[0] == Plant(Pool.InitialPool(states[0].pool.hardBudget), map[], map[])
  {
    hide PlantStep, Pool.InitialPool;
  }

  /** In every state of every run, each copy under way has come there by a run of its own: the others, all of
      them copies like it, did to its request and its memory only what such a run allows. */
  lemma {:induction false} PlantRunKeepsInv(states: seq<Plant>, actions: seq<Action>, k: nat)
    requires PlantRun(states, actions) && k < |states|
    ensures PlantInv(states[k])
  {
    hide *;
    if k == 0 {
      PlantRunIs(states, actions, 0);
      EmptyPlantInv(states[0].pool.hardBudget);
    } else {
      PlantRunIs(states, actions, k - 1);
      PlantRunKeepsInv(states, actions, k - 1);
      PlantStepKeepsInv(states[k - 1], actions[k - 1], states[k]);
    }
  }

  lemma JobRuns(states: seq<Plant>, actions: seq<Action>, k: nat, x: nat)
    requires PlantRun(states, actions) && k < |states| && x in states[k].jobs
    ensures var job := states[k].jobs[x]; var j := Joint(states[k].pool, job.state);
      && job.setup.id == x && Reached(job.setup, j, job.work, job.canceled)
      && OnPool(job.setup, j) && Copy.Inv(job.setup, job.state)
  {
    hide *;
    PlantRunKeepsInv(states, actions, k);
    JobIs(states[k], x);
  }

  /** No turn of one copy touches the base buffer of another, or a chunk that the other has accepted, except
      where that one is still reading. */
  lemma OthersLeaveMineAlone(states: seq<Plant>, actions: seq<Action>, k: nat, y: nat)
    requires PlantRun(states, actions) && k < |actions| && y in states[k].jobs && y in states[k + 1].jobs
    requires actions[k].Advance? && actions[k].id != y
    ensures LeavesMine(states[k].jobs[y].state, states[k + 1].jobs[y].state.mem)
  {
    hide *;
    PlantRunIs(states, actions, k);
    PlantRunKeepsInv(states, actions, k);
    AdvanceLeaves(states[k], actions[k].id, actions[k].turn, y, states[k + 1]) by {
      StepIsAdvance(states[k], actions[k], states[k + 1]);
    }
  }

  lemma StepIsAdvance(s: Plant, a: Action, s': Plant)
    requires PlantStep(s, a, s') && a.Advance?
    ensures StepAdvance(s, a.id, a.turn, s')
  {
    hide StepAdvance;
  }

  lemma AdvanceLeaves(s: Plant, x: nat, t: Turn, y: nat, s': Plant)
    requires PlantInv(s) && StepAdvance(s, x, t, s') && y in s.jobs && x != y
    ensures y in s'.jobs && LeavesMine(s.jobs[y].state, s'.jobs[y].state.mem)
  {
    hide PlantInv, StepAdvance, OnPool, TurnStep, ChunksOf, Over, ReadInto, LeavesMine, Steady, Apply;
    AdvanceIs(s, x, t, s');
    WritesAreApart(s, x, y, s'.jobs[x].state.mem);
  }

  /** A copy that returns uncancelled gives what the sequential loop gives, whatever the other copies do. */
  lemma SharedCopyIsSequential(states: seq<Plant>, actions: seq<Action>, k: nat, x: nat)
    requires PlantRun(states, actions) && k < |states| && x in states[k].jobs
    requires states[k].jobs[x].state.c.at.Returned? && states[k].jobs[x].state.ctx.done.None?
    ensures var (e, s) := (states[k].jobs[x].setup, states[k].jobs[x].state);
      && s.c.got.end.Some?
      && (exists n :: Sequential(e.read, e.write, e.expected, n).Stopped?)
      && (forall n :: Sequential(e.read, e.write, e.expected, n).Stopped? ==>
        Results.SameOutcome(s, Sequential(e.read, e.write, e.expected, n)))
  {
    JobRuns(states, actions, k, x);
    hide PlantRun, JointRun, OnPool, Copy.Inv, Sequential, Results.SameOutcome, OwnTurns, NoCancel;
    var job := states[k].jobs[x];
    var js, turns :| ReachedBy(job.setup, Joint(states[k].pool, job.state), job.work, job.canceled, js, turns);
    JointCopyIsSequential(job.setup, js, turns);
  }

  ghost predicate CanAdvance(s: Plant, x: nat) {
    exists m, s' :: StepAdvance(s, x, Own(m), s')
  }

  lemma AdvancePossible(s: Plant, x: nat)
    requires PlantInv(s) && x in s.jobs
    requires OnPool(s.jobs[x].setup, Joint(s.pool, s.jobs[x].state))
    requires OwnTurnPossible(s.jobs[x].setup, Joint(s.pool, s.jobs[x].state))
    ensures CanAdvance(s, x)
  {
    hide PlantInv, OnPool, TurnStep, StepAdvance;
    var e, j := s.jobs[x].setup, Joint(s.pool, s.jobs[x].state);
    var m, j' :| TurnStep(e, j, Own(m), j');
    AllKnown(s, x, Own(m), j');
    AdvanceTo(s, x, Own(m), j');
  }

  /** The plant after a turn of the copy `x` that takes it to `j`. */
  function Advanced(s: Plant, x: nat, t: Turn, j: Joint): Plant
    requires x in s.jobs && forall y :: y in s.jobs ==> y in j.pool.reqs
  {
    var chunks := ChunksOf(j.copy.mem);
    Plant(j.pool, chunks,
          map y | y in s.jobs :: if y == x then Worked(s.jobs[x], t, j.copy) else Found(y, s.jobs[y], j.pool, chunks))
  }

  lemma AdvanceTo(s: Plant, x: nat, t: Turn, j: Joint)
    requires x in s.jobs && OfCopy(t) && forall y :: y in s.jobs ==> y in j.pool.reqs
    requires OnPool(s.jobs[x].setup, Joint(s.pool, s.jobs[x].state))
    requires TurnStep(s.jobs[x].setup, Joint(s.pool, s.jobs[x].state), t, j)
    ensures StepAdvance(s, x, t, Advanced(s, x, t, j))
  {
    hide OnPool, TurnStep, ChunksOf, Found;
  }

  lemma AllKnown(s: Plant, x: nat, t: Turn, j': Joint)
    requires PlantInv(s) && x in s.jobs && OfCopy(t)
    requires OnPool(s.jobs[x].setup, Joint(s.pool, s.jobs[x].state))
    requires TurnStep(s.jobs[x].setup, Joint(s.pool, s.jobs[x].state), t, j')
    ensures forall y :: y in s.jobs ==> y in j'.pool.reqs
  {
    hide PlantInv, OnPool, TurnStep, ReadInto, Steady, Apply, Enabled;
    InvOf(s);
    TurnIsSmall(s.jobs[x].setup, Joint(s.pool, s.jobs[x].state), t, j');
    if j'.pool != s.pool {
      var op :| Steady(s.pool) && Enabled(s.pool, op) && j'.pool == Apply(s.pool, op).0;
      forall y | y in s.jobs
        ensures y in j'.pool.reqs
      {
        ApplyKeepsKnown(s.pool, op, y);
      }
    }
  }

  /** No copy is ever held up for good by the others: until it has returned, one of its goroutines can take a
      turn, and then its request can be closed. */
  lemma EveryCopyGoesOn(states: seq<Plant>, actions: seq<Action>, k: nat, x: nat)
    requires PlantRun(states, actions) && k < |states| && x in states[k].jobs
    ensures !states[k].jobs[x].state.c.at.Returned? ==> CanAdvance(states[k], x)
    ensures states[k].jobs[x].state.c.at.Returned? ==> exists s' :: StepFinish(states[k], x, [], s')
  {
    hide *;
    var s := states[k];
    PlantRunKeepsInv(states, actions, k);
    JobRuns(states, actions, k, x);
    if s.jobs[x].state.c.at.Returned? {
      FinishPossible(s, x);
    } else {
      UnreturnedGoesOn(s.jobs[x].setup, Joint(s.pool, s.jobs[x].state));
      AdvancePossible(s, x);
    }
  }

  lemma FinishPossible(s: Plant, x: nat)
    requires PlantInv(s) && x in s.jobs && s.jobs[x].state.c.at.Returned?
    ensures exists s' :: StepFinish(s, x, [], s')
  {
    hide PlantInv, Copy.Inv, OnPool, ChunksOf, Over, Reached, Steady, Apply;
    JobIs(s, x);
    InvOf(s);
    var job := s.jobs[x];
    Results.ReturnedViewIsFresh(job.setup, job.state);
    PoolOfJoint(job.setup, Joint(s.pool, job.state));
    var op := OpClose(x, []);
    assert Enabled(s.pool, op);
    var pool := Apply(s.pool, op).0;
    forall y | y in s.jobs
      ensures y in pool.reqs
    {
      ApplyKeepsKnown(s.pool, op, y);
    }
    var jobs := map y | y in s.jobs && y != x :: Found(y, s.jobs[y], pool, s.chunks);
    assert StepFinish(s, x, [], Plant(pool, s.chunks, jobs));
  }

  /** An uncancelled copy whose script ends by read `bound` takes at most 100 bound + 3102 turns among all the
      others, and when it has none left it has returned what the sequential copy of those reads returns. */
  lemma SharedCopyReturns(states: seq<Plant>, actions: seq<Action>, k: nat, x: nat, bound: nat)
    requires PlantRun(states, actions) && k < |states| && x in states[k].jobs && !states[k].jobs[x].canceled
    requires var e := states[k].jobs[x].setup; Produced(e.read, e.expected, bound).done
    ensures var job := states[k].jobs[x];
      job.work <= 3102 + 100 * bound && (!CanAdvance(states[k], x) ==> ReturnedAs(job.setup, job.state, bound))
  {
    hide *;
    PlantRunKeepsInv(states, actions, k);
    JobRuns(states, actions, k, x);
    var job := states[k].jobs[x];
    ReachedReturns(job.setup, Joint(states[k].pool, job.state), job.work, bound);
    if OwnTurnPossible(job.setup, Joint(states[k].pool, job.state)) {
      AdvancePossible(states[k], x);
    }
  }

  lemma ReachedReturns(e: Setup, j: Joint, work: nat, bound: nat)
    requires Reached(e, j, work, false) && OnPool(e, j) && Produced(e.read, e.expected, bound).done
    ensures work <= 3102 + 100 * bound && (!OwnTurnPossible(e, j) ==> ReturnedAs(e, j.copy, bound))
  {
    hide OnPool, JointRun, OwnTurns, NoCancel, OwnTurnPossible, Sequential, Produced, Results.SameOutcome;
    var js, turns :| ReachedBy(e, j, work, false, js, turns);
    JointCopyReturns(e, js, turns, bound);
  }

  /** The queue's 32-bit counters are safe in every copy. */
  lemma SharedQueueFits(states: seq<Plant>, actions: seq<Action>, k: nat, x: nat)
    requires PlantRun(states, actions) && k < |states| && x in states[k].jobs
    ensures var q := states[k].jobs[x].state.q;
      Results.QueuedBytes(q.items) < 0x8000_0000 && (!q.closing ==> |q.items| <= 16386)
  {
    JobRuns(states, actions, k, x);
    hide PlantRun, JointRun, OnPool, Copy.Inv, Results.QueuedBytes, OwnTurns, NoCancel;
    var job := states[k].jobs[x];
    var js, turns :| ReachedBy(job.setup, Joint(states[k].pool, job.state), job.work, job.canceled, js, turns);
    JointQueueFits(job.setup, js, turns, |turns|);
  }

  // ---- when all is over -----------------------------------------------------------------------

  lemma {:induction false} IdleOwnsNothing(s: Pool.Pool, ids: seq<nat>)
    requires Steady(s) && forall id :: id in ids ==> id in s.reqs && Idle(ViewOf(s.reqs[id]))
    ensures Recount(ids, s.reqs).owned == 0 && Recount(ids, s.reqs).debt == 0
  {
    hide Steady;
    if |ids| > 0 {
      var id := ids[|ids| - 1];
      assert id in ids;
      IdleOwnsNothing(s, ids[..|ids| - 1]);
      OwnsByView(s, id);
    }
  }

  lemma OwnsByView(s: Pool.Pool, id: nat)
    requires Steady(s) && id in s.reqs && Idle(ViewOf(s.reqs[id]))
    ensures s.reqs[id].owned == 0 && s.reqs[id].debt == 0
  {
    ClosedIsUnregistered(s, id);
    assert RequestOk(id, s.reqs[id]);
  }

  lemma SomeMember(ids: seq<nat>)
    ensures ids == [] || exists id :: id in ids
  {
    if ids != [] {
      assert ids[0] in ids;
    }
  }

  lemma IdlePool(s: Pool.Pool)
    requires Steady(s) && forall id :: id in s.reqs ==> Idle(ViewOf(s.reqs[id]))
    ensures s.ownedBytes == 0 && s.debtBytes == 0 && s.waiters == []
    ensures s.allocatedBytes == Pool.ChunkBytes(|s.free|)
  {
    IdleOwnsNothing(s, s.requests);
    SomeMember(s.waiters);
  }

  /** Nothing leaks: once every copy under way has returned, whichever of them were cancelled, no byte of the
      allocator is owned or in debt, nobody waits, and every chunk it ever made is free again. */
  lemma PlantAtRest(states: seq<Plant>, actions: seq<Action>, k: nat)
    requires PlantRun(states, actions) && k < |states|
    requires forall x :: x in states[k].jobs ==> states[k].jobs[x].state.c.at.Returned?
    ensures var p := states[k].pool;
      p.ownedBytes == 0 && p.debtBytes == 0 && p.waiters == [] && p.allocatedBytes == Pool.ChunkBytes(|p.free|)
  {
    PlantRunKeepsInv(states, actions, k);
    hide PlantRun;
    AllIdle(states[k]);
    IdlePool(states[k].pool) by { InvOf(states[k]); }
  }

  lemma AllIdle(s: Plant)
    requires PlantInv(s) && forall x :: x in s.jobs ==> s.jobs[x].state.c.at.Returned?
    ensures forall id :: id in s.pool.reqs ==> Idle(ViewOf(s.pool.reqs[id]))
  {
    hide JobOk, Steady, ChunksOf, Copy.Inv, OnPool, Reached;
    forall id | id in s.pool.reqs
      ensures Idle(ViewOf(s.pool.reqs[id]))
    {
      if id in s.jobs {
        JobIs(s, id);
        Results.ReturnedViewIsFresh(s.jobs[id].setup, s.jobs[id].state);
        PoolOfJoint(s.jobs[id].setup, Joint(s.pool, s.jobs[id].state));
      }
    }
  }
}

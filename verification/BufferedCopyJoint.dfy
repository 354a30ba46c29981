/**
 Whole runs of a buffered copy together with the allocator: from the registration of its request on, the two
 goroutines, the other requests of the pool and the environment take turns in any order.
 */
module BufferedCopyJoint {
  import opened Wrappers
  import Pool = MediaBufferModel
  import opened MediaBufferOperations
  import opened MediaBufferRuns
  import opened MediaCopy
  import opened BufferedCopyModel
  import Copy = BufferedCopyInvariant
  import Story = BufferedCopyStory
  import Results = BufferedCopyResults
  import Termination = BufferedCopyTermination
  import opened BufferedCopyAllocator
  import Queues = MediaCopyQueue

  /** A goroutine's move with its allocator call, an operation on another request, or the environment. */
  datatype Turn = Own(move: Move) | Other(op: Op) | World(move: Move)

  /** Grants are left to the scheduler here; the environment cancels and writes into memory. */
  predicate OfWorld(m: Move) {
    m.Cancel? || m.Propagate? || m.Scribble?
  }

  ghost predicate TurnStep(e: Setup, j: Joint, t: Turn, j': Joint)
    requires OnPool(e, j)
  {
    match t
    case Own(m) => !Results.ByEnvironment(m) && Together(e, j, m, j')
    case Other(op) =>
      && Enabled(j.pool, op) && Subject(op) != e.id
      && j'.pool == Apply(j.pool, op).0
      && e.id in j'.pool.reqs && j'.copy == j.copy.(view := ViewOf(j'.pool.reqs[e.id]))
    case World(m) => OfWorld(m) && Step(e, j.copy, m, j'.copy) && j'.pool == j.pool
  }

  /** The copy begins on a steady pool with which its request has just been registered. */
  ghost predicate Begins(e: Setup, j: Joint) {
    exists s: Pool.Pool :: Steady(s) && Registers(s, e.id, j.pool) && j.copy == Initial(j.copy.mem)
  }

  ghost predicate Registers(s: Pool.Pool, id: nat, p: Pool.Pool) {
    Pool.Registered(s) && Pool.WaitersKnown(s) && p == Pool.Register(s) && id == p.nextRequestID
  }

  ghost predicate JointRun(e: Setup, js: seq<Joint>, turns: seq<Turn>) {
    && |js| == |turns| + 1
    && Begins(e, js[0])
    && (forall i :: 0 <= i < |turns| ==> OnPool(e, js[i]) && TurnStep(e, js[i], turns[i], js[i + 1]))
  }

  // ---- the relation holds throughout ----------------------------------------------------------

  lemma BeginsOnPool(e: Setup, j: Joint)
    requires Begins(e, j)
    ensures OnPool(e, j) && Copy.Inv(e, j.copy)
  {
    hide Copy.Inv, Steady, Pool.Register;
    var s: Pool.Pool :| Steady(s) && Registers(s, e.id, j.pool) && j.copy == Initial(j.copy.mem);
    RegisterSettles(s);
    CopyStartsFresh(s);
    Copy.InitialInv(e, j.copy.mem);
  }

  lemma WorldLeavesView(e: Setup, s: State, m: Move, s': State)
    requires Step(e, s, m, s') && OfWorld(m)
    ensures s'.view == s.view && EnvironmentStep(e, s, m, s')
  {
    hide Contents, Released, Asked, Mine;
    OnlyEnvironment(e, s, m, s');
  }

  lemma OnlyEnvironment(e: Setup, s: State, m: Move, s': State)
    requires OfWorld(m)
    ensures !ReaderStep(e, s, m, s') && !AcquireStep(e, s, m, s') && !ServeStep(e, s, m, s') && !CleanStep(e, s, m, s')
  {
  }

  /** What a turn is to the copy: one step of its own runs, or none. */
  ghost predicate Projects(e: Setup, s: State, t: Turn, s': State) {
    match t
    case Own(m) => !Results.ByEnvironment(m) && Step(e, s, m, s')
    case Other(_) => s' == s || Step(e, s, Grant, s')
    case World(m) => OfWorld(m) && Step(e, s, m, s')
  }

  lemma TurnKeepsRelation(e: Setup, j: Joint, t: Turn, j': Joint)
    requires OnPool(e, j) && Copy.Inv(e, j.copy) && TurnStep(e, j, t, j')
    ensures OnPool(e, j') && Copy.Inv(e, j'.copy) && Projects(e, j.copy, t, j'.copy)
  {
    hide Copy.Inv, Step, Steady, Apply, Enabled;
    match t
    case Own(m) => Story.StepKeepsInv(e, j.copy, m, j'.copy);
    case Other(op) =>
      OthersAreGrants(e, j, op);
      if j'.copy != j.copy {
        Story.StepKeepsInv(e, j.copy, Grant, j'.copy);
      }
    case World(m) =>
      WorldLeavesView(e, j.copy, m, j'.copy);
      Story.StepKeepsInv(e, j.copy, m, j'.copy);
  }

  lemma {:induction false} JointRunKeepsRelation(e: Setup, js: seq<Joint>, turns: seq<Turn>, k: nat)
    requires JointRun(e, js, turns) && k < |js|
    ensures OnPool(e, js[k]) && Copy.Inv(e, js[k].copy)
    ensures k > 0 ==> Projects(e, js[k - 1].copy, turns[k - 1], js[k].copy)
  {
    hide Copy.Inv, OnPool, TurnStep, Projects, Begins;
    if k == 0 {
      BeginsOnPool(e, js[0]);
    } else {
      JointRunKeepsRelation(e, js, turns, k - 1);
      assert OnPool(e, js[k - 1]) && TurnStep(e, js[k - 1], turns[k - 1], js[k - 1 + 1]);
      TurnKeepsRelation(e, js[k - 1], turns[k - 1], js[k]);
    }
  }

  // ---- the copy's own run ---------------------------------------------------------------------

  /** How many turns were moves of the goroutines. */
  function OwnTurns(turns: seq<Turn>): nat {
    if |turns| == 0 then 0 else OwnTurns(turns[..|turns| - 1]) + (if turns[|turns| - 1].Own? then 1 else 0)
  }

  predicate NoCancel(turns: seq<Turn>) {
    forall i :: 0 <= i < |turns| ==> !(turns[i].World? && turns[i].move.Cancel?)
  }

  /** A run of the copy alone that ends as `s` does, with as much work of the goroutines. */
  ghost predicate RunsTo(e: Setup, states: seq<State>, moves: seq<Move>, s: State, work: nat, canceled: bool) {
    && Run(e, states, moves) && states[|moves|] == s && Termination.Work(moves) == work
    && (!canceled ==> Termination.NeverCancelled(moves))
  }

  lemma RunExtends(e: Setup, states: seq<State>, moves: seq<Move>, m: Move, s': State)
    requires Run(e, states, moves) && Step(e, states[|moves|], m, s')
    ensures Run(e, states + [s'], moves + [m])
    ensures Termination.Work(moves + [m]) == Termination.Work(moves) + (if Results.ByEnvironment(m) then 0 else 1)
    ensures Termination.NeverCancelled(moves) && !m.Cancel? ==> Termination.NeverCancelled(moves + [m])
  {
    hide Step;
    var states', moves' := states + [s'], moves + [m];
    assert moves'[..|moves|] == moves;
    forall i | 0 <= i < |moves'|
      ensures Step(e, states'[i], moves'[i], states'[i + 1])
    {
      if i < |moves| {
        assert Step(e, states[i], moves[i], states[i + 1]);
      }
    }
  }

  ghost predicate RunsSomehow(e: Setup, s: State, work: nat, canceled: bool) {
    exists states, moves :: RunsTo(e, states, moves, s, work, canceled)
  }

  lemma RunStarts(e: Setup, mem: Memory)
    ensures RunsSomehow(e, Initial(mem), 0, false)
  {
    var states, moves := [Initial(mem)], [];
    assert RunsTo(e, states, moves, Initial(mem), 0, false);
  }

  lemma RunTurns(e: Setup, s: State, work: nat, canceled: bool, t: Turn, s': State)
    requires RunsSomehow(e, s, work, canceled) && Projects(e, s, t, s')
    ensures RunsSomehow(e, s', if t.Own? then work + 1 else work, canceled || (t.World? && t.move.Cancel?))
  {
    hide Step, Run;
    var states, moves :| RunsTo(e, states, moves, s, work, canceled);
    var m := if t.Other? then Grant else t.move;
    if s' == s && t.Other? {
      assert RunsTo(e, states, moves, s', work, canceled);
    } else {
      RunExtends(e, states, moves, m, s');
      assert (states + [s'])[|moves + [m]|] == s' by { RunLength(e, states, moves); }
      assert RunsTo(e, states + [s'], moves + [m], s', if t.Own? then work + 1 else work, canceled || (t.World? && t.move.Cancel?));
    }
  }

  lemma RunLength(e: Setup, states: seq<State>, moves: seq<Move>)
    requires Run(e, states, moves)
    ensures |states| == |moves| + 1
  {
    hide Step;
  }

  /** What the goroutines and the environment do to the copy in a joint run is a run of the copy alone, with
      the same work of the goroutines, and without a cancellation if the joint run has none. */
  lemma {:induction false} ProjectionIsRun(e: Setup, js: seq<Joint>, turns: seq<Turn>, k: nat)
    requires JointRun(e, js, turns) && k < |js|
    ensures RunsSomehow(e, js[k].copy, OwnTurns(turns[..k]), !NoCancel(turns[..k]))
  {
    hide *;
    JointLength(e, js, turns);
    if k == 0 {
      ProjectionStarts(e, js, turns);
    } else {
      ProjectionIsRun(e, js, turns, k - 1);
      ProjectsAt(e, js, turns, k);
      ProjectionGrows(e, js[k - 1].copy, turns[..k - 1], turns[k - 1], js[k].copy);
      assert turns[..k] == turns[..k - 1] + [turns[k - 1]];
    }
  }

  lemma ProjectionStarts(e: Setup, js: seq<Joint>, turns: seq<Turn>)
    requires JointRun(e, js, turns)
    ensures |js| > 0 && RunsSomehow(e, js[0].copy, OwnTurns(turns[..0]), !NoCancel(turns[..0]))
  {
    hide *;
    JointStart(e, js, turns);
    RunStarts(e, js[0].copy.mem);
    NoTurns(turns[..0]);
  }

  lemma ProjectsAt(e: Setup, js: seq<Joint>, turns: seq<Turn>, k: nat)
    requires JointRun(e, js, turns) && 0 < k < |js|
    ensures k <= |turns| && Projects(e, js[k - 1].copy, turns[k - 1], js[k].copy)
  {
    hide *;
    JointLength(e, js, turns);
    JointRunKeepsRelation(e, js, turns, k);
  }

  lemma ProjectionGrows(e: Setup, s: State, before: seq<Turn>, t: Turn, s': State)
    requires RunsSomehow(e, s, OwnTurns(before), !NoCancel(before)) && Projects(e, s, t, s')
    ensures RunsSomehow(e, s', OwnTurns(before + [t]), !NoCancel(before + [t]))
  {
    hide *;
    RunTurns(e, s, OwnTurns(before), !NoCancel(before), t, s');
    CancelCounts(before, t);
  }

  lemma JointLength(e: Setup, js: seq<Joint>, turns: seq<Turn>)
    requires JointRun(e, js, turns)
    ensures |js| == |turns| + 1
  {
    hide TurnStep, OnPool, Begins;
  }

  lemma JointStart(e: Setup, js: seq<Joint>, turns: seq<Turn>)
    requires JointRun(e, js, turns)
    ensures |js| > 0 && js[0].copy == Initial(js[0].copy.mem)
  {
    hide TurnStep, OnPool, Steady, Registers, Initial;
  }

  lemma NoTurns(turns: seq<Turn>)
    requires |turns| == 0
    ensures OwnTurns(turns) == 0 && NoCancel(turns)
  {
  }

  lemma CancelCounts(before: seq<Turn>, t: Turn)
    ensures NoCancel(before + [t]) <==> NoCancel(before) && !(t.World? && t.move.Cancel?)
    ensures OwnTurns(before + [t]) == if t.Own? then OwnTurns(before) + 1 else OwnTurns(before)
  {
    assert (before + [t])[|before|] == t && (before + [t])[..|before|] == before;
    if NoCancel(before + [t]) {
      forall i | 0 <= i < |before|
        ensures !(before[i].World? && before[i].move.Cancel?)
      {
        assert (before + [t])[i] == before[i];
      }
    }
  }

  // ---- what a joint run promises --------------------------------------------------------------

  /** A copy that returns uncancelled gives what the sequential loop gives, whatever other requests do. */
  lemma JointCopyIsSequential(e: Setup, js: seq<Joint>, turns: seq<Turn>)
    requires JointRun(e, js, turns)
    requires js[|turns|].copy.c.at.Returned? && js[|turns|].copy.ctx.done.None?
    ensures js[|turns|].copy.c.got.end.Some?
    ensures exists k :: Sequential(e.read, e.write, e.expected, k).Stopped?
    ensures forall k :: Sequential(e.read, e.write, e.expected, k).Stopped? ==>
      Results.SameOutcome(js[|turns|].copy, Sequential(e.read, e.write, e.expected, k))
  {
    ProjectionIsRun(e, js, turns, |turns|);
    hide Run, Results.SameOutcome, Sequential, JointRun;
    var s := js[|turns|].copy;
    var states, moves :| RunsTo(e, states, moves, s, OwnTurns(turns[..|turns|]), !NoCancel(turns[..|turns|]));
    Results.UncancelledCopyIsSequential(e, states, moves);
  }

  /** Cancelled or not, a copy that returns leaves its request owning no byte of the pool and not waiting, and
      has observed no broken invariant. */
  lemma JointCopyOwnsNothing(e: Setup, js: seq<Joint>, turns: seq<Turn>)
    requires JointRun(e, js, turns) && js[|turns|].copy.c.at.Returned?
    ensures var j := js[|turns|];
      && e.id in j.pool.reqs && j.pool.reqs[e.id].owned == 0 && !j.pool.reqs[e.id].waiting
      && j.copy.c.got.end.Some? && !ResultOf(j.copy).invariantObserved
  {
    JointRunKeepsRelation(e, js, turns, |turns|);
    hide Copy.Inv, JointRun, Steady;
    ReturnedOwnsNothing(e, js[|turns|]);
    Results.ReturnedViewIsFresh(e, js[|turns|].copy);
    Results.ReturnedIsSelected(e, js[|turns|].copy);
  }

  /** In every state of every joint run the queue's 32-bit counters are safe: the bytes queued, and while the
      queue is open its length and the indices of any object that stands for it. */
  lemma JointQueueFits(e: Setup, js: seq<Joint>, turns: seq<Turn>, k: nat)
    requires JointRun(e, js, turns) && k < |js|
    ensures var q := js[k].copy.q;
      && Results.QueuedBytes(q.items) <= 536870912 + 32768 < 0x8000_0000
      && (!q.closing ==> |q.items| <= 16386)
  {
    JointRunKeepsRelation(e, js, turns, k);
    ProjectionIsRun(e, js, turns, k);
    var j := js[k];
    OwnedThroughView(j.pool, e.id);
    hide Run, JointRun, Steady, Copy.Inv;
    var states, moves :| RunsTo(e, states, moves, j.copy, OwnTurns(turns[..k]), !NoCancel(turns[..k]));
    RunLength(e, states, moves);
    Results.QueuedBytesFit(e, states, moves, |moves|);
    if !j.copy.q.closing {
      Results.QueueStaysShort(e, states, moves, |moves|);
    }
  }

  lemma JointQueueObjectFits(e: Setup, js: seq<Joint>, turns: seq<Turn>, k: nat, q: Queues.MediaBufferCopyQueue)
    requires JointRun(e, js, turns) && k < |js| && !js[k].copy.q.closing
    requires q.Valid() && q.model == js[k].copy.q
    ensures q.head <= |q.events| < 0x8000_0000 && 0 <= q.bytes < 0x8000_0000
  {
    JointQueueFits(e, js, turns, k);
    hide JointRun;
    Queues.BackingIsLinear(q);
  }

  ghost predicate OwnTurnPossible(e: Setup, j: Joint)
    requires OnPool(e, j)
  {
    exists m, j' :: TurnStep(e, j, Own(m), j')
  }

  /** A copy that could move alone can move on its pool. */
  lemma MovesTogether(e: Setup, j: Joint)
    requires OnPool(e, j) && Copy.Inv(e, j.copy) && Results.CanMove(e, j.copy)
    ensures OwnTurnPossible(e, j)
  {
    hide Copy.Inv, Together, Step, OnPool;
    var m, t :| !Results.ByEnvironment(m) && Step(e, j.copy, m, t);
    PoolServesCopy(e, j, m, t);
    var j' :| Together(e, j, m, j') && Copy.Inv(e, j'.copy);
    assert TurnStep(e, j, Own(m), j');
  }

  /** Total correctness on a shared pool: without a cancellation and with a script that ends by read `bound`, the
      goroutines take at most 100 bound + 3102 turns however the other requests use the pool, and when they
      have none left the copy has returned what the sequential copy of those reads returns. */
  lemma JointCopyReturns(e: Setup, js: seq<Joint>, turns: seq<Turn>, bound: nat)
    requires JointRun(e, js, turns) && NoCancel(turns) && Produced(e.read, e.expected, bound).done
    ensures OwnTurns(turns) <= 3102 + 100 * bound
    ensures OnPool(e, js[|turns|]) && Sequential(e.read, e.write, e.expected, bound).Stopped?
    ensures !OwnTurnPossible(e, js[|turns|]) ==>
      var s := js[|turns|].copy;
      s.c.at.Returned? && s.c.got.end.Some? && Results.SameOutcome(s, Sequential(e.read, e.write, e.expected, bound))
  {
    ProjectionIsRun(e, js, turns, |turns|);
    JointRunKeepsRelation(e, js, turns, |turns|);
    assert turns[..|turns|] == turns;
    hide Run, JointRun, Steady, Copy.Inv, Results.SameOutcome, Results.CanMove, Sequential, Produced;
    hide OwnTurnPossible, OnPool, TurnStep;
    var s := js[|turns|].copy;
    var states, moves :| RunsTo(e, states, moves, s, OwnTurns(turns), false);
    Termination.UncancelledCopyReturns(e, states, moves, bound);
    if Results.CanMove(e, s) {
      MovesTogether(e, js[|turns|]);
    }
  }

  // ---- from a cancellation to the return ------------------------------------------------------

  /** A producer's turn that its context could not have stopped yet. */
  predicate UnheardTurn(j: Joint, t: Turn) {
    t.Own? && Termination.Unheard(j.copy, t.move)
  }

  /** How many of the turns from `i` to `k` came before the cancellation reached the producer. */
  function UnheardTurns(js: seq<Joint>, turns: seq<Turn>, i: nat, k: nat): nat
    requires i <= k <= |turns| && |js| == |turns| + 1
    decreases k
  {
    if i == k then 0 else UnheardTurns(js, turns, i, k - 1) + (if UnheardTurn(js[k - 1], turns[k - 1]) then 1 else 0)
  }

  lemma TurnCharges(e: Setup, j: Joint, t: Turn, j': Joint)
    requires Copy.Inv(e, j.copy) && j.copy.ctx.done.Some? && Projects(e, j.copy, t, j'.copy)
    ensures j'.copy.ctx.done.Some?
    ensures Termination.CancelBudget(j'.copy) + (if t.Own? then 1 else 0)
         <= Termination.CancelBudget(j.copy) + (if UnheardTurn(j, t) then 8 else 0)
  {
    hide Copy.Inv, Step, Termination.CancelBudget;
    if !(t.Other? && j'.copy == j.copy) {
      Termination.StepCharges(e, j.copy, if t.Other? then Grant else t.move, j'.copy);
    }
  }

  lemma {:induction false} CancelledTurns(e: Setup, js: seq<Joint>, turns: seq<Turn>, i: nat, k: nat)
    requires |js| == |turns| + 1 && i <= k <= |turns| && JointRun(e, js, turns) && js[i].copy.ctx.done.Some?
    ensures js[k].copy.ctx.done.Some?
    ensures OwnTurns(turns[i..k]) + Termination.CancelBudget(js[k].copy)
         <= Termination.CancelBudget(js[i].copy) + 8 * UnheardTurns(js, turns, i, k)
    decreases k
  {
    hide JointRun, Copy.Inv, Projects, Termination.CancelBudget, UnheardTurn, NoCancel;
    if i < k {
      CancelledTurns(e, js, turns, i, k - 1);
      JointRunKeepsRelation(e, js, turns, k - 1);
      ProjectsAt(e, js, turns, k);
      TurnCharges(e, js[k - 1], turns[k - 1], js[k]);
      assert turns[i..k] == turns[i..k - 1] + [turns[k - 1]];
      CancelCounts(turns[i..k - 1], turns[k - 1]);
    } else {
      NoTurns(turns[i..k]);
    }
  }

  /** A cancelled copy returns too: whatever the other requests do, from the cancellation on the goroutines take
      a bounded number of turns, and when they have none left the copy has returned. */
  lemma JointCancelledCopyReturns(e: Setup, js: seq<Joint>, turns: seq<Turn>, i: nat)
    requires |js| == |turns| + 1 && i <= |turns| && JointRun(e, js, turns) && js[i].copy.ctx.done.Some?
    ensures OwnTurns(turns[i..]) <= 3406 + 5 * |js[i].copy.q.items| + 8 * UnheardTurns(js, turns, i, |turns|)
    ensures OnPool(e, js[|turns|])
    ensures !OwnTurnPossible(e, js[|turns|]) ==> js[|turns|].copy.c.at.Returned?
  {
    hide *;
    CancelledTurns(e, js, turns, i, |turns|);
    assert turns[i..|turns|] == turns[i..];
    Termination.CancelBudgetBound(js[i].copy);
    JointRunKeepsRelation(e, js, turns, |turns|);
    if !js[|turns|].copy.c.at.Returned? {
      UnreturnedGoesOn(e, js[|turns|]);
    }
  }

  /** On its pool, as alone, a copy that has not returned can go on. */
  lemma UnreturnedGoesOn(e: Setup, j: Joint)
    requires OnPool(e, j) && Copy.Inv(e, j.copy) && !j.copy.c.at.Returned?
    ensures OwnTurnPossible(e, j)
  {
    hide Copy.Inv, OnPool, OwnTurnPossible, Results.CanMove;
    Results.NeverStuck(e, j.copy);
    MovesTogether(e, j);
  }

  // ---- joint runs exist -----------------------------------------------------------------------

  /** The copy's request can be registered with any steady pool. */
  lemma JointRunBegins(e: Setup, s: Pool.Pool, mem: Memory) returns (j: Joint)
    requires Steady(s) && e.id == s.nextRequestID + 1
    ensures Registers(s, e.id, j.pool) && j.copy == Initial(mem)
    ensures JointRun(e, [j], []) && NoCancel([])
  {
    hide Steady;
    assert Pool.Registered(s) && Pool.WaitersKnown(s) by { CopyStartsFresh(s); }
    j := Joint(Pool.Register(s), Initial(mem));
    assert e.id == j.pool.nextRequestID by { RegisterSettles(s); }
    assert Registers(s, e.id, j.pool);
    assert j.copy == Initial(j.copy.mem);
    assert Begins(e, j);
    hide *;
    OneStateRuns(e, j);
  }

  lemma OneStateRuns(e: Setup, j: Joint)
    requires Begins(e, j)
    ensures JointRun(e, [j], []) && NoCancel([])
  {
    hide Begins, OnPool, TurnStep;
    assert [j][0] == j;
  }

  lemma JointRunExtends(e: Setup, js: seq<Joint>, turns: seq<Turn>, t: Turn, j': Joint)
    requires JointRun(e, js, turns) && OnPool(e, js[|turns|]) && TurnStep(e, js[|turns|], t, j')
    ensures JointRun(e, js + [j'], turns + [t])
  {
    hide Begins, OnPool, TurnStep;
    var js', turns' := js + [j'], turns + [t];
    assert js'[0] == js[0];
    forall i | 0 <= i < |turns'|
      ensures OnPool(e, js'[i]) && TurnStep(e, js'[i], turns'[i], js'[i + 1])
    {
      if i < |turns| {
        assert OnPool(e, js[i]) && TurnStep(e, js[i], turns[i], js[i + 1]);
      }
    }
  }

  /** The copy has returned what the sequential copy of the first `bound` reads returns. */
  ghost predicate ReturnedAs(e: Setup, s: State, bound: nat) {
    var sequential := Sequential(e.read, e.write, e.expected, bound);
    s.c.at.Returned? && s.c.got.end.Some? && sequential.Stopped? && Results.SameOutcome(s, sequential)
  }

  ghost predicate ReturnedIn(e: Setup, js: seq<Joint>, turns: seq<Turn>, bound: nat) {
    && |js| == |turns| + 1 && ReturnedAs(e, js[|turns|].copy, bound)
    && JointRun(e, js, turns) && NoCancel(turns)
  }

  /** The second run goes on from the first with turns of the goroutines. */
  ghost predicate OwnOnly(js: seq<Joint>, turns: seq<Turn>, js': seq<Joint>, turns': seq<Turn>) {
    js <= js' && turns <= turns' && forall i :: |turns| <= i < |turns'| ==> turns'[i].Own?
  }

  /** An uncancelled joint run whose script ends by read `bound`. */
  ghost predicate Ending(e: Setup, js: seq<Joint>, turns: seq<Turn>, bound: nat) {
    JointRun(e, js, turns) && NoCancel(turns) && Produced(e.read, e.expected, bound).done
  }

  /** Every such run can go on, by the goroutines alone, until the copy has returned. */
  lemma {:induction false} JointRunCanReturn(e: Setup, js: seq<Joint>, turns: seq<Turn>, bound: nat)
    requires Ending(e, js, turns, bound)
    ensures exists js', turns' :: ReturnedIn(e, js', turns', bound) && OwnOnly(js, turns, js', turns')
    decreases 3102 + 100 * bound - OwnTurns(turns)
  {
    hide *;
    if ReturnedIn(e, js, turns, bound) {
      OwnOnlyGrows(js, turns, js, turns);
    } else {
      var j', t := OneMoreTurn(e, js, turns, bound);
      JointRunCanReturn(e, js + [j'], turns + [t], bound);
      var js', turns' :| ReturnedIn(e, js', turns', bound) && OwnOnly(js + [j'], turns + [t], js', turns');
      OwnOnlyGrows(js, turns, js + [j'], turns + [t]);
      OwnOnlyJoins(js, turns, js + [j'], turns + [t], js', turns');
    }
  }

  lemma OneMoreTurn(e: Setup, js: seq<Joint>, turns: seq<Turn>, bound: nat) returns (j': Joint, t: Turn)
    requires Ending(e, js, turns, bound) && !ReturnedIn(e, js, turns, bound)
    ensures t.Own? && Ending(e, js + [j'], turns + [t], bound)
    ensures OwnTurns(turns) < OwnTurns(turns + [t]) <= 3102 + 100 * bound
  {
    JointCopyReturns(e, js, turns, bound);
    JointLength(e, js, turns);
    hide JointRun, NoCancel, OwnTurns, Produced, TurnStep, OnPool, Results.SameOutcome, Sequential;
    var m;
    m, j' :| TurnStep(e, js[|turns|], Own(m), j');
    t := Own(m);
    JointRunExtends(e, js, turns, t, j');
    CancelCounts(turns, t);
    JointCopyReturns(e, js + [j'], turns + [t], bound);
  }

  lemma OwnOnlyGrows(js: seq<Joint>, turns: seq<Turn>, js': seq<Joint>, turns': seq<Turn>)
    requires js <= js' && turns <= turns' && |turns'| <= |turns| + 1
    requires |turns'| > |turns| ==> turns'[|turns|].Own?
    ensures OwnOnly(js, turns, js', turns')
  {
  }

  lemma OwnOnlyJoins(a: seq<Joint>, s: seq<Turn>, b: seq<Joint>, t: seq<Turn>, c: seq<Joint>, u: seq<Turn>)
    requires OwnOnly(a, s, b, t) && OwnOnly(b, t, c, u)
    ensures OwnOnly(a, s, c, u)
  {
  }
}

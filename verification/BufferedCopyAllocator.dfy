/**
 The copy protocol sees its request through a `View` and assumes a few transitions of it. Here every one
 of them is what the allocator does, for the pool as a whole and with any other requests on it.

 A move of the copy is taken together with the allocator call that it makes, and every call of another request
 is, to this copy, nothing or a grant. So the copy's own runs are those that it has on a pool.
 */
module BufferedCopyAllocator {
  import opened Wrappers
  import Pool = MediaBufferModel
  import opened MediaBufferInvariant
  import opened MediaBufferOperations
  import opened MediaBufferRuns
  import opened MediaCopy
  import opened BufferedCopyModel
  import Copy = BufferedCopyInvariant
  import Results = BufferedCopyResults
  import Story = BufferedCopyStory

  lemma GrantedFrom(id: nat, v: View, v': View, lo: nat, hi: nat)
    requires ViewOther(id, v, v', lo, hi)
    ensures SameOrGranted(id, v, v')
  {
  }

  /** Asking for a chunk. */
  lemma AskIsServed(s: Pool.Pool, id: nat)
    requires Steady(s) && id in s.reqs
    ensures Pool.WaitersKnown(s) && id in Pool.RequestOptional(s, id).0.reqs
    ensures Asked(id, ViewOf(s.reqs[id]), ViewOf(Pool.RequestOptional(s, id).0.reqs[id]))
    ensures Pool.RequestOptional(s, id).1 == Pool.Failed(Pool.ErrClosed) <==> s.reqs[id].closed
  {
    RequestSettles(s, id);
    hide Steady, Pool.Schedule;
    var v, v' := ViewOf(s.reqs[id]), ViewOf(Pool.RequestOptional(s, id).0.reqs[id]);
    if !(v.closed || v.pending.Some? || v.waiting) {
      GrantedFrom(id, v.(waiting := true), v', s.nextGrant, Pool.RequestOptional(s, id).0.nextGrant);
    }
  }

  /** Accepting a grant. */
  lemma AcceptIsServed(s: Pool.Pool, id: nat)
    requires Steady(s) && id in s.reqs
    ensures var v := ViewOf(s.reqs[id]);
      if !v.closed && v.pending.Some? then
        && ViewOf(Pool.AcceptOptional(s, id).0.reqs[id]) == Accept(v)
        && Pool.AcceptOptional(s, id).1 == Pool.Accepted(v.pending.value)
      else Pool.AcceptOptional(s, id) == (s, Pool.Failed(if v.closed then Pool.ErrClosed else Pool.ErrNoGrant))
  {
    AcceptSettles(s, id);
    hide Steady, ViewsExcept;
  }

  /** Giving up asking. */
  lemma CancelIsServed(s: Pool.Pool, id: nat)
    requires Steady(s) && id in s.reqs
    ensures Pool.WaitersKnown(s) && Pool.PendingKnown(s, id) && id in Pool.CancelOptional(s, id).0.reqs
    ensures ViewOf(Pool.CancelOptional(s, id).0.reqs[id]) == Withdrawn(ViewOf(s.reqs[id]))
  {
    CancelSettles(s, id);
  }

  /** Releasing a lease: taken back when it is good, refused without effect when it is not. */
  lemma ReleaseIsServed(s: Pool.Pool, id: nat, l: Lease)
    requires Steady(s) && id in s.reqs
    ensures Pool.WaitersKnown(s) && id in Pool.ReleaseOptional(s, id, l).0.reqs
    ensures var v := ViewOf(s.reqs[id]);
      && Released(id, v, l, ViewOf(Pool.ReleaseOptional(s, id, l).0.reqs[id]))
      && (Pool.ReleaseOptional(s, id, l).1 == Pool.Done <==> Good(id, v, l))
  {
    ReleaseSettles(s, id, l);
    hide Steady, Pool.Schedule, Pool.ReleaseAccepted, Pool.ValidLease;
    var v, v' := ViewOf(s.reqs[id]), ViewOf(Pool.ReleaseOptional(s, id, l).0.reqs[id]);
    if Good(id, v, l) {
      GrantedFrom(id, v.(accepted := v.accepted - {l.chunk}), v', s.nextGrant, Pool.ReleaseOptional(s, id, l).0.nextGrant);
    }
  }

  /** Whatever is done to the other requests, this one can only be granted a chunk that it waits for. */
  lemma OthersOnlyGrant(s: Pool.Pool, op: Op, id: nat)
    requires Steady(s) && Enabled(s, op) && id in s.reqs && id != Subject(op)
    ensures id in Apply(s, op).0.reqs
    ensures SameOrGranted(id, ViewOf(s.reqs[id]), ViewOf(Apply(s, op).0.reqs[id]))
  {
    ApplyKeepsSteady(s, op);
    hide Steady, Apply, Enabled;
    GrantedFrom(id, ViewOf(s.reqs[id]), ViewOf(Apply(s, op).0.reqs[id]), s.nextGrant, Apply(s, op).0.nextGrant);
  }

  /** Requests do not share chunks, so others cannot write into what this one has accepted. */
  lemma ChunksAreApart(s: Pool.Pool, x: nat, y: nat, c: nat, g: nat, h: nat)
    requires Steady(s) && x in s.reqs && y in s.reqs && Holds(s.reqs[x], c, g) && Holds(s.reqs[y], c, h)
    ensures x == y && g == h && c !in s.free
  {
  }

  /** A new request starts the copy with nothing. */
  lemma CopyStartsFresh(s: Pool.Pool)
    requires Steady(s)
    ensures Pool.Registered(s) && Pool.WaitersKnown(s)
    ensures var p := Pool.Register(s); p.nextRequestID in p.reqs && ViewOf(p.reqs[p.nextRequestID]) == FRESH_VIEW
  {
    RegisterSettles(s);
  }

  /** The bytes a request owns, seen through its view: nothing once the view is fresh again, and never more
      than the cap that bounds the queue's byte counter. */
  lemma OwnedThroughView(s: Pool.Pool, id: nat)
    requires Steady(s) && id in s.reqs
    ensures 32768 * |ViewOf(s.reqs[id]).accepted| <= s.reqs[id].owned <= 536870912
    ensures ViewOf(s.reqs[id]) == FRESH_VIEW ==> s.reqs[id].owned == 0
  {
    ClosedIsUnregistered(s, id);
    assert RequestOk(id, s.reqs[id]);
  }

  // ---- the copy on a pool ---------------------------------------------------------------------

  /** A copy and the pool it runs on. */
  datatype Joint = Joint(pool: Pool.Pool, copy: State)

  ghost predicate OnPool(e: Setup, j: Joint) {
    Steady(j.pool) && e.id in j.pool.reqs && j.copy.view == ViewOf(j.pool.reqs[e.id])
  }

  function LeaseOp(id: nat, b: Buffer): Option<Op> {
    if b.Leased? then Some(OpRelease(id, b.lease)) else None
  }

  /** The allocator call that a move makes, if it makes one. */
  function CallOf(id: nat, s: State, m: Move): Option<Op> {
    match m
    case Ask => Some(OpRequest(id))
    case GiveBack => Some(OpCancel(id))
    case Withdraw => Some(OpCancel(id))
    case CancelRequest => Some(OpCancel(id))
    case TryNotify => Some(OpReceive(id))
    case WaitNotify => Some(OpReceive(id))
    case AcceptGrant => Some(OpAccept(id))
    case Drop => if s.p.at.Dropping? then LeaseOp(id, s.p.at.cur) else None
    case Return => if s.c.at.Returning? then LeaseOp(id, s.c.at.cur) else None
    case Drain => if |s.q.items| > 0 && s.q.items[0].Data? then LeaseOp(id, s.q.items[0].buffer) else None
    case _ => None
  }

  ghost function Called(s: Pool.Pool, call: Option<Op>): Pool.Pool
    requires Steady(s) && (call.Some? ==> Enabled(s, call.value))
  {
    if call.Some? then Apply(s, call.value).0 else s
  }

  lemma CallIsEnabled(e: Setup, j: Joint, m: Move)
    requires OnPool(e, j)
    ensures var call := CallOf(e.id, j.copy, m); call.Some? ==> Enabled(j.pool, call.value)
  {
    hide Steady;
  }

  /** A move of either goroutine together with its allocator call. */
  ghost predicate Together(e: Setup, j: Joint, m: Move, j': Joint)
    requires OnPool(e, j)
  {
    CallIsEnabled(e, j, m);
    && Step(e, j.copy, m, j'.copy)
    && j'.pool == Called(j.pool, CallOf(e.id, j.copy, m))
    && OnPool(e, j')
  }

  /** What the call of a move does to the request's view, in the terms of the steps. */
  ghost predicate Serves(id: nat, s: State, m: Move, v': View) {
    var v, call := s.view, CallOf(id, s, m);
    && (call.None? ==> v' == v)
    && (m.Ask? ==> Asked(id, v, v'))
    && (m.GiveBack? || m.Withdraw? || m.CancelRequest? ==> v' == Withdrawn(v))
    && (m.TryNotify? || m.WaitNotify? ==> v' == v.(notify := false))
    && (m.AcceptGrant? ==> v' == if !v.closed && v.pending.Some? then Accept(v) else v)
    && ((m.Drop? || m.Return? || m.Drain?) && call.Some? ==> call.value.OpRelease? && Released(id, v, call.value.lease, v'))
  }

  /** What an operation of the request's own does to its view. */
  ghost predicate Effect(id: nat, v: View, op: Op, v': View) {
    match op
    case OpRequest(_) => Asked(id, v, v')
    case OpCancel(_) => v' == Withdrawn(v)
    case OpReceive(_) => v' == v.(notify := false)
    case OpAccept(_) => v' == if !v.closed && v.pending.Some? then Accept(v) else v
    case OpRelease(_, l) => Released(id, v, l, v')
    case _ => true
  }

  lemma OpHasEffect(s: Pool.Pool, op: Op, id: nat)
    requires Steady(s) && Enabled(s, op) && id in s.reqs && Subject(op) == id
    ensures id in Apply(s, op).0.reqs && Effect(id, ViewOf(s.reqs[id]), op, ViewOf(Apply(s, op).0.reqs[id]))
  {
    ApplyKeepsKnown(s, op, id);
    hide Steady, Asked, Released, Accept, ViewsExcept;
    match op
    case OpRequest(_) => AskIsServed(s, id);
    case OpCancel(_) => CancelIsServed(s, id);
    case OpReceive(_) => ReceiveSettles(s, id);
    case OpAccept(_) => AcceptIsServed(s, id);
    case OpRelease(_, l) => ReleaseIsServed(s, id, l);
    case _ =>
  }

  lemma CallIs(id: nat, s: State, m: Move, v': View)
    ensures var call := CallOf(id, s, m);
      (if call.Some? then Effect(id, s.view, call.value, v') else v' == s.view) ==> Serves(id, s, m, v')
  {
    hide Asked, Released, Accept, Withdrawn;
  }

  lemma CallServes(e: Setup, j: Joint, m: Move)
    requires OnPool(e, j)
    ensures var call := CallOf(e.id, j.copy, m);
      && (call.Some? ==> Enabled(j.pool, call.value))
      && var p := Called(j.pool, call);
      Steady(p) && e.id in p.reqs && Serves(e.id, j.copy, m, ViewOf(p.reqs[e.id]))
  {
    var call := CallOf(e.id, j.copy, m);
    CallIsEnabled(e, j, m);
    CallIsOwn(e.id, j.copy, m);
    hide CallOf, Serves, Steady, Enabled, Apply, Effect, ViewsExcept;
    if call.Some? {
      ApplyKeepsSteady(j.pool, call.value);
      OpHasEffect(j.pool, call.value, e.id);
    }
    CallIs(e.id, j.copy, m, ViewOf(Called(j.pool, call).reqs[e.id]));
  }

  lemma CallIsOwn(id: nat, s: State, m: Move)
    ensures CallOf(id, s, m).Some? ==> Subject(CallOf(id, s, m).value) == id
  {
  }

  lemma ApplyKeepsKnown(s: Pool.Pool, op: Op, id: nat)
    requires Steady(s) && Enabled(s, op) && id in s.reqs
    ensures id in Apply(s, op).0.reqs
  {
    ApplyKeepsSteady(s, op);
    hide Apply, Steady, Enabled;
  }

  lemma TogetherIs(e: Setup, j: Joint, m: Move, s': State)
    requires OnPool(e, j)
    requires var call := CallOf(e.id, j.copy, m); call.Some? ==> Enabled(j.pool, call.value)
    requires var p := Called(j.pool, CallOf(e.id, j.copy, m));
      Steady(p) && e.id in p.reqs && s'.view == ViewOf(p.reqs[e.id]) && Step(e, j.copy, m, s')
    ensures Together(e, j, m, Joint(Called(j.pool, CallOf(e.id, j.copy, m)), s'))
  {
    hide Step, Steady, CallOf, Called, Enabled;
  }

  ghost predicate PoolServes(e: Setup, j: Joint, m: Move)
    requires OnPool(e, j)
  {
    exists j' :: Together(e, j, m, j') && Copy.Inv(e, j'.copy)
  }

  /** Nothing the copy can do is refused by the allocator: whenever a goroutine has a move, it has one whose
      effect on the request is the one that the pool's own operation has. */
  lemma PoolServesCopy(e: Setup, j: Joint, m: Move, t: State)
    requires OnPool(e, j) && Copy.Inv(e, j.copy) && !Results.ByEnvironment(m) && Step(e, j.copy, m, t)
    ensures PoolServes(e, j, m)
  {
    hide Step, Steady, CallOf, Called, Enabled, Copy.Inv, Serves, Together;
    CallServes(e, j, m);
    Story.OpenRequest(e, j.copy);
    var p := Called(j.pool, CallOf(e.id, j.copy, m));
    var s' := t.(view := ViewOf(p.reqs[e.id]));
    ServedIsStep(e, j.copy, m, t, s'.view);
    Story.StepKeepsInv(e, j.copy, m, s');
    TogetherIs(e, j, m, s');
  }

  lemma ServedIsStep(e: Setup, s: State, m: Move, t: State, v': View)
    requires Step(e, s, m, t) && !Results.ByEnvironment(m) && Serves(e.id, s, m, v') && !s.view.closed
    ensures Step(e, s, m, t.(view := v'))
  {
    hide ReaderStep, AcquireStep, ServeStep, CleanStep, EnvironmentStep, Serves;
    if ReaderStep(e, s, m, t) {
      ServedReader(e, s, m, t, v');
    } else if AcquireStep(e, s, m, t) {
      ServedAcquirer(e, s, m, t, v');
    } else if ServeStep(e, s, m, t) {
      ServedServer(e, s, m, t, v');
    } else if CleanStep(e, s, m, t) {
      ServedCleaner(e, s, m, t, v');
    } else {
      EnvironmentIsNamed(e, s, m, t);
    }
  }

  lemma EnvironmentIsNamed(e: Setup, s: State, m: Move, t: State)
    requires EnvironmentStep(e, s, m, t)
    ensures Results.ByEnvironment(m)
  {
    hide StepGrant, StepScribble, StepCancel, StepPropagate;
  }

  lemma ServedReader(e: Setup, s: State, m: Move, t: State, v': View)
    requires ReaderStep(e, s, m, t) && Serves(e.id, s, m, v')
    ensures ReaderStep(e, s, m, t.(view := v'))
  {
    hide Released, Good, Contents, AfterRead;
  }

  lemma ServedAcquirer(e: Setup, s: State, m: Move, t: State, v': View)
    requires AcquireStep(e, s, m, t) && Serves(e.id, s, m, v') && !s.view.closed
    ensures AcquireStep(e, s, m, t.(view := v'))
  {
    hide Asked, Accept;
  }

  lemma ServedServer(e: Setup, s: State, m: Move, t: State, v': View)
    requires ServeStep(e, s, m, t) && Serves(e.id, s, m, v')
    ensures ServeStep(e, s, m, t.(view := v'))
  {
    hide Good, Contents, Deliver;
  }

  lemma ServedCleaner(e: Setup, s: State, m: Move, t: State, v': View)
    requires CleanStep(e, s, m, t) && Serves(e.id, s, m, v')
    ensures CleanStep(e, s, m, t.(view := v'))
  {
    hide Released, Good;
  }

  /** Whatever is done to the other requests of the pool is no step of this copy, or a grant to it. */
  lemma OthersAreGrants(e: Setup, j: Joint, op: Op)
    requires OnPool(e, j) && Enabled(j.pool, op) && Subject(op) != e.id
    ensures var p := Apply(j.pool, op).0;
      && e.id in p.reqs
      && var s' := j.copy.(view := ViewOf(p.reqs[e.id]));
      && OnPool(e, Joint(p, s')) && (s' == j.copy || Step(e, j.copy, Grant, s'))
  {
    OthersOnlyGrant(j.pool, op, e.id);
    ApplyKeepsSteady(j.pool, op);
    hide Apply, Steady, Enabled, Step, ViewsExcept;
    GrantIsStep(e, j.copy, ViewOf(Apply(j.pool, op).0.reqs[e.id]));
  }

  lemma GrantIsStep(e: Setup, s: State, v': View)
    requires SameOrGranted(e.id, s.view, v')
    ensures s.(view := v') == s || Step(e, s, Grant, s.(view := v'))
  {
    hide ReaderStep, AcquireStep, ServeStep, CleanStep;
    assert v' != s.view ==> EnvironmentStep(e, s, Grant, s.(view := v'));
  }

  /** When a copy on a pool has returned, its request owns no chunk of that pool. */
  lemma ReturnedOwnsNothing(e: Setup, j: Joint)
    requires OnPool(e, j) && Copy.Inv(e, j.copy) && j.copy.c.at.Returned?
    ensures j.pool.reqs[e.id].owned == 0 && !j.pool.reqs[e.id].waiting
  {
    hide Steady;
    Results.ReturnedViewIsFresh(e, j.copy);
    OwnedThroughView(j.pool, e.id);
  }
}

/**
 Whole runs of the allocator: any number of requests, any operations, in any order.
 */
module MediaBufferRuns {
  import opened Wrappers
  import opened MediaBufferModel
  import opened MediaBufferInvariant
  import opened MediaBufferSchedule
  import opened MediaBufferOperations
  import opened MediaBufferClose

  datatype Op =
    | OpRegister
    | OpRequest(id: nat)
    | OpReceive(id: nat)
    | OpAccept(id: nat)
    | OpCancel(id: nat)
    | OpRelease(id: nat, lease: Lease)
    | OpClose(id: nat, order: seq<nat>)

  /** A caller can name only requests that were registered, open or closed. */
  ghost predicate Enabled(s: Pool, op: Op) {
    match op
    case OpRegister => true
    case OpClose(id, order) => id in s.reqs && ValidOrder(s, id, order)
    case _ => op.id in s.reqs
  }

  ghost function Apply(s: Pool, op: Op): (Pool, Outcome)
    requires Steady(s) && Enabled(s, op)
  {
    ReadyFor(s, op);
    match op
    case OpRegister => (Register(s), Done)
    case OpRequest(id) => RequestOptional(s, id)
    case OpReceive(id) => (ReceiveNotification(s, id), Done)
    case OpAccept(id) => AcceptOptional(s, id)
    case OpCancel(id) => CancelOptional(s, id)
    case OpRelease(id, lease) => ReleaseOptional(s, id, lease)
    case OpClose(id, order) => (Close(s, id, order), Done)
  }

  lemma ReadyFor(s: Pool, op: Op)
    requires Steady(s) && Enabled(s, op)
    ensures Registered(s) && WaitersKnown(s)
    ensures op.OpCancel? || op.OpClose? ==> PendingKnown(s, op.id)
    ensures op.OpClose? ==> forall c :: c in op.order ==> c in s.chunks
  {
    OpenRegistry(s);
    if op.OpCancel? || op.OpClose? {
      ClosedIsUnregistered(s, op.id);
    }
    if op.OpClose? {
      OrderKnown(s, op.id, op.order);
    }
  }

  /** The request an operation is about; 0 names none. */
  function Subject(op: Op): nat {
    if op.OpRegister? then 0 else op.id
  }

  lemma RegisterApplied(s: Pool)
    requires Steady(s)
    ensures Registered(s) && WaitersKnown(s) && Steady(Register(s)) && ViewsExcept(s, Register(s), 0)
  {
    hide Steady, Register, ViewOther;
    RegisterSettles(s);
  }

  /** Every operation keeps the invariant and leaves no waiter grantable; only registering may add debt. */
  lemma ApplyKeepsSteady(s: Pool, op: Op)
    requires Steady(s) && Enabled(s, op)
    ensures var p := Apply(s, op).0;
      && Steady(p) && ViewsExcept(s, p, Subject(op))
      && (!op.OpRegister? ==> p.debtBytes <= s.debtBytes)
  {
    hide Steady, ViewsExcept;
    match op
    case OpRegister => RegisterApplied(s);
    case OpRequest(id) => RequestSettles(s, id);
    case OpReceive(id) => ReceiveSettles(s, id);
    case OpAccept(id) => AcceptSettles(s, id);
    case OpCancel(id) => CancelSettles(s, id);
    case OpRelease(id, lease) => ReleaseSettles(s, id, lease);
    case OpClose(id, order) => CloseSettles(s, id, order);
  }

  // ---- whole runs -----------------------------------------------------------------------------

  /** A run from an empty pool: each operation is one a caller could make. */
  ghost predicate Legal(hardBudget: int, ops: seq<Op>)
    requires ValidBudget(hardBudget)
    decreases |ops|, 0
  {
    |ops| > 0 ==>
      && Legal(hardBudget, ops[..|ops| - 1])
      && Enabled(After(hardBudget, ops[..|ops| - 1]), ops[|ops| - 1])
  }

  /** The pool after a run. Whatever the run was, the pool is steady. */
  ghost function After(hardBudget: int, ops: seq<Op>): (s: Pool)
    requires ValidBudget(hardBudget) && Legal(hardBudget, ops)
    ensures Steady(s)
    decreases |ops|, 1
  {
    if |ops| == 0 then
      InitialPoolInv(hardBudget);
      InitialPool(hardBudget)
    else
      var s := After(hardBudget, ops[..|ops| - 1]);
      ApplyKeepsSteady(s, ops[|ops| - 1]);
      Apply(s, ops[|ops| - 1]).0
  }

  lemma {:induction false} PrefixLegal(hardBudget: int, ops: seq<Op>, i: nat)
    requires ValidBudget(hardBudget) && Legal(hardBudget, ops) && i <= |ops|
    ensures Legal(hardBudget, ops[..i])
    ensures i < |ops| ==> Enabled(After(hardBudget, ops[..i]), ops[i])
    ensures i < |ops| ==> Legal(hardBudget, ops[..i + 1])
    ensures i < |ops| ==> After(hardBudget, ops[..i + 1]) == Apply(After(hardBudget, ops[..i]), ops[i]).0
    decreases |ops|
  {
    hide Apply, Enabled, Steady;
    if i == |ops| {
      assert ops[..i] == ops;
    } else if i == |ops| - 1 {
      assert ops[..i + 1] == ops;
    } else {
      var init := ops[..|ops| - 1];
      PrefixLegal(hardBudget, init, i);
      assert init[..i] == ops[..i] && init[..i + 1] == ops[..i + 1];
    }
  }

  // ---- who can be blocked, and why ------------------------------------------------------------

  lemma {:induction false} SumBelowTargets(ids: seq<nat>, reqs: map<nat, Request>, target: int, w: nat)
    requires forall id :: id in ids ==> id in reqs && reqs[id].owned <= target
    requires w in ids ==> reqs[w].owned <= target - CHUNK
    ensures Recount(ids, reqs).owned <= |ids| * target - (if w in ids then CHUNK else 0)
  {
    var n := |ids| - 1;
    if n >= 0 {
      assert ids == ids[..n] + [ids[n]];
      SumBelowTargets(ids[..n], reqs, target, w);
      assert (n + 1) * target == n * target + target;
    }
  }

  /** The equal shares never promise more than the budget. */
  lemma SharesFitBudget(hardBudget: int, n: nat)
    requires n > 0 && hardBudget >= 0
    ensures n * TargetFor(hardBudget, n) <= hardBudget
  {
    var q := hardBudget / n;
    assert TargetFor(hardBudget, n) <= Align(q) <= q;
    MulMonotone(TargetFor(hardBudget, n), q, n);
    assert q * n <= hardBudget;
  }

  lemma FullPool(s: Pool)
    requires Inv(s) && !PoolSpace(s)
    ensures s.ownedBytes == s.hardBudget && Recount(s.requests, s.reqs).owned == s.hardBudget
  {
    hide Roster, RequestsOk, FreeList, Generations, Ownership, Recount, WaitersAre, Open;
  }

  /** Without debt nobody who could use a chunk is kept from it by the pool. */
  lemma DebtFreePoolHasSpace(s: Pool, w: nat)
    requires Inv(s) && w in s.requests && w in s.reqs
    requires s.reqs[w].owned + CHUNK <= s.reqs[w].target
    requires forall id :: id in s.requests ==> id in s.reqs && s.reqs[id].debt == 0
    ensures PoolSpace(s)
  {
    if !PoolSpace(s) {
      FullPool(s);
      hide Roster, FreeList, Generations, Ownership, Balanced, WaitersAre, Open, Recount, TargetFor;
      var n := |s.requests|;
      var target := TargetFor(s.hardBudget, n);
      forall id | id in s.requests
        ensures s.reqs[id].owned <= target
      {
        assert RequestOk(id, s.reqs[id]);
      }
      SumBelowTargets(s.requests, s.reqs, target, w);
      SharesFitBudget(s.hardBudget, n);
      assert false;
    }
  }

  lemma {:induction false} CountFindsOne(ids: seq<nat>, reqs: map<nat, Request>)
    requires forall id :: id in ids ==> id in reqs && reqs[id].debt >= 0
    ensures (Recount(ids, reqs).indebted > 0) <==> (exists id :: id in ids && reqs[id].debt > 0)
    ensures (Recount(ids, reqs).debt > 0) <==> (exists id :: id in ids && reqs[id].debt > 0)
    ensures Recount(ids, reqs).debt >= 0 && Recount(ids, reqs).indebted >= 0
  {
    var n := |ids| - 1;
    if n >= 0 {
      assert ids == ids[..n] + [ids[n]];
      CountFindsOne(ids[..n], reqs);
      assert forall id :: id in ids <==> id in ids[..n] || id == ids[n];
    }
  }

  /** The indebted counter is positive exactly when some registered request is in debt. */
  lemma IndebtedIsSomeDebt(s: Pool)
    requires Inv(s)
    ensures Registered(s)
    ensures (s.indebted > 0) <==> (exists id :: id in s.requests && s.reqs[id].debt > 0)
    ensures (s.debtBytes > 0) <==> (s.indebted > 0)
    ensures s.debtBytes >= 0 && s.indebted >= 0
  {
    forall id | id in s.requests
      ensures s.reqs[id].debt >= 0
    {
      assert RequestOk(id, s.reqs[id]);
    }
    CountFindsOne(s.requests, s.reqs);
  }

  lemma NobodyInDebt(s: Pool)
    requires Inv(s) && s.indebted <= 0
    ensures forall id :: id in s.requests ==> id in s.reqs && s.reqs[id].debt == 0
  {
    OpenRegistry(s);
    IndebtedIsSomeDebt(s);
    forall id | id in s.requests
      ensures s.reqs[id].debt == 0
    {
      assert RequestOk(id, s.reqs[id]);
    }
  }

  /** A waiter is refused for an exhausted pool only while some registered request is in debt. */
  lemma PoolExhaustionNeedsDebt(s: Pool, w: nat)
    requires Inv(s) && w in s.reqs && RequestBlocker(s, w) == BlockerPoolExhausted
    ensures s.indebted > 0 && s.debtBytes > 0
    ensures exists id :: id in s.requests && id in s.reqs && id != w && s.reqs[id].debt > 0
  {
    OpenRegistry(s);
    IndebtedIsSomeDebt(s);
    ClosedIsUnregistered(s, w);
    if s.indebted <= 0 {
      NobodyInDebt(s);
      hide Sound;
      DebtFreePoolHasSpace(s, w);
      assert false;
    }
  }

  lemma WaiterIs(s: Pool, w: nat)
    requires Inv(s) && w in s.waiters
    ensures w in s.reqs && w in s.requests
    ensures var r := s.reqs[w]; r.waiting && r.pending.None? && !r.closed && RequestOk(w, r)
  {
  }

  lemma NotGrantable(s: Pool, w: nat)
    requires Steady(s) && w in s.waiters
    ensures w in s.reqs && !CanGrant(s, w)
  {
  }

  /** When nobody is in debt, everyone still waiting already owns exactly its equal share. */
  lemma DebtFreeWaitersAreAtTarget(s: Pool, w: nat)
    requires Steady(s) && s.debtBytes == 0 && w in s.waiters
    ensures w in s.reqs && s.reqs[w].owned == s.reqs[w].target
  {
    hide Sound, Open, WorkConserving;
    WaiterIs(s, w);
    IndebtedIsSomeDebt(s);
    NobodyInDebt(s);
    NotGrantable(s, w);
    if s.reqs[w].owned + CHUNK <= s.reqs[w].target {
      DebtFreePoolHasSpace(s, w);
      assert false;
    }
  }

  /** Every byte count the allocator computes, in every reachable state, fits 64 bits. */
  lemma CountersFitInt64(s: Pool)
    requires Inv(s) && s.hardBudget <= 0x7FFF_FFFF_FFFF_FFFF - CHUNK
    ensures 0 <= s.ownedBytes <= s.allocatedBytes <= s.hardBudget
    ensures s.allocatedBytes + CHUNK <= 0x7FFF_FFFF_FFFF_FFFF
    ensures 0 <= s.debtBytes <= s.ownedBytes
    ensures 0 <= s.baseOnly <= |s.requests| && 0 <= s.indebted <= |s.requests|
    ensures forall id :: id in s.reqs ==>
      var r := s.reqs[id];
      0 <= r.debt <= r.owned && r.owned + CHUNK <= 0x7FFF_FFFF_FFFF_FFFF && 0 <= r.target <= REQUEST_CAP
  {
    OpenRegistry(s);
    forall id | id in s.reqs
      ensures var r := s.reqs[id]; 0 <= r.debt <= r.owned <= REQUEST_CAP && 0 <= r.target <= REQUEST_CAP
    {
      assert RequestOk(id, s.reqs[id]);
    }
    forall id | id in s.requests
      ensures s.reqs[id].owned >= 0 && 0 <= s.reqs[id].debt <= s.reqs[id].owned
    {
      assert RequestOk(id, s.reqs[id]);
    }
    RecountBounds(s.requests, s.reqs);
    DebtBelowOwned(s.requests, s.reqs);
  }

  lemma {:induction false} DebtBelowOwned(ids: seq<nat>, reqs: map<nat, Request>)
    requires forall id :: id in ids ==> id in reqs && 0 <= reqs[id].debt <= reqs[id].owned
    ensures Recount(ids, reqs).debt <= Recount(ids, reqs).owned
  {
    if |ids| > 0 {
      DebtBelowOwned(ids[..|ids| - 1], reqs);
    }
  }

  // ---- leases -----------------------------------------------------------------------------------

  /** How far a lease has come: 0 not granted yet, 1 pending, 2 accepted, 3 gone. */
  ghost function Stage(s: Pool, lease: Lease): nat {
    if lease.generation > s.nextGrant then 0
    else if lease.requestID !in s.reqs then 3
    else
      var r := s.reqs[lease.requestID];
      if r.pending == Some(lease) then 1
      else if lease.chunk in r.accepted && r.accepted[lease.chunk] == lease.generation then 2
      else 3
  }

  /** One request across one step: what it accepted was pending, and new grants are new generations. */
  ghost predicate ViewAges(id: nat, v: View, v': View, lo: nat) {
    && (forall c :: c in v'.accepted ==>
      || (c in v.accepted && v.accepted[c] == v'.accepted[c])
      || v.pending == Some(Lease(c, id, v'.accepted[c])))
    && (v'.pending.Some? ==> v'.pending == v.pending || v'.pending.value.generation > lo)
    && (v.closed ==> v' == v)
  }

  lemma WaitersAreOpen(s: Pool, id: nat)
    requires Steady(s) && id in s.reqs
    ensures s.reqs[id].waiting ==> !s.reqs[id].closed
    ensures s.reqs[id].closed ==> ViewOf(s.reqs[id]) == View(false, true, false, None, map[])
  {
    hide Sound;
    ClosedIsUnregistered(s, id);
  }

  lemma OthersAge(s: Pool, op: Op, id: nat)
    requires Steady(s) && Enabled(s, op) && id in s.reqs && id != Subject(op)
    ensures var p := Apply(s, op).0;
      id in p.reqs && ViewAges(id, ViewOf(s.reqs[id]), ViewOf(p.reqs[id]), s.nextGrant)
  {
    hide Steady, Apply, Enabled;
    ApplyKeepsSteady(s, op);
    WaitersAreOpen(s, id);
  }

  lemma SubjectAges(s: Pool, op: Op)
    requires Steady(s) && Enabled(s, op) && !op.OpRegister?
    ensures var p := Apply(s, op).0;
      op.id in s.reqs && op.id in p.reqs && ViewAges(op.id, ViewOf(s.reqs[op.id]), ViewOf(p.reqs[op.id]), s.nextGrant)
  {
    hide Steady, ViewsExcept, ValidOrder;
    WaitersAreOpen(s, op.id);
    PendingIsOwn(s, op.id);
    match op
    case OpRequest(id) => RequestSettles(s, id);
    case OpReceive(id) => ReceiveSettles(s, id);
    case OpAccept(id) => AcceptSettles(s, id);
    case OpCancel(id) => CancelSettles(s, id);
    case OpRelease(id, lease) => ReleaseSettles(s, id, lease);
    case OpClose(id, order) => CloseSettles(s, id, order);
  }

  lemma PendingIsOwn(s: Pool, id: nat)
    requires Steady(s) && id in s.reqs
    ensures s.reqs[id].pending.Some? ==>
      s.reqs[id].pending.value.requestID == id && s.reqs[id].pending.value.chunk !in s.reqs[id].accepted
  {
    hide Sound;
    ClosedIsUnregistered(s, id);
  }

  /** A lease in hand, pending or accepted, was granted before now. */
  lemma LeasesAreGranted(s: Pool, lease: Lease)
    requires Steady(s) && lease.requestID in s.reqs
    requires var r := s.reqs[lease.requestID];
      r.pending == Some(lease) || (lease.chunk in r.accepted && r.accepted[lease.chunk] == lease.generation)
    ensures lease.generation <= s.nextGrant
  {
    assert Holds(s.reqs[lease.requestID], lease.chunk, lease.generation);
  }

  lemma StageFromAges(s: Pool, p: Pool, lease: Lease)
    requires Steady(s) && Steady(p) && Newcomers(s, p) && s.nextGrant <= p.nextGrant
    requires lease.requestID in s.reqs ==>
      ViewAges(lease.requestID, ViewOf(s.reqs[lease.requestID]), ViewOf(p.reqs[lease.requestID]), s.nextGrant)
    ensures Stage(s, lease) <= Stage(p, lease)
  {
    hide Steady;
    var id := lease.requestID;
    if id in s.reqs {
      PendingIsOwn(s, id);
      if p.reqs[id].pending == Some(lease) {
        LeasesAreGranted(p, lease);
      }
    }
  }

  /** No step takes a lease back to an earlier stage of its life. */
  lemma LeasesOnlyAdvance(s: Pool, op: Op, lease: Lease)
    requires Steady(s) && Enabled(s, op)
    ensures Stage(s, lease) <= Stage(Apply(s, op).0, lease)
  {
    hide Steady, Apply, Enabled, Stage, ViewAges;
    ApplyKeepsSteady(s, op);
    if lease.requestID in s.reqs {
      if lease.requestID == Subject(op) && !op.OpRegister? {
        SubjectAges(s, op);
      } else {
        NoRequestIsZero(s);
        OthersAge(s, op, lease.requestID);
      }
    }
    StageFromAges(s, Apply(s, op).0, lease);
  }

  lemma NoRequestIsZero(s: Pool)
    requires Steady(s)
    ensures 0 !in s.reqs
  {
  }

  lemma {:induction false} LeasesAdvanceOverRuns(hardBudget: int, ops: seq<Op>, i: nat, j: nat, lease: Lease)
    requires ValidBudget(hardBudget) && Legal(hardBudget, ops) && i <= j <= |ops|
    ensures Legal(hardBudget, ops[..i]) && Legal(hardBudget, ops[..j])
    ensures Stage(After(hardBudget, ops[..i]), lease) <= Stage(After(hardBudget, ops[..j]), lease)
    decreases j - i
  {
    hide Steady, Apply, Enabled, Stage, Legal, After;
    PrefixLegal(hardBudget, ops, i);
    PrefixLegal(hardBudget, ops, j);
    if i < j {
      LeasesOnlyAdvance(After(hardBudget, ops[..i]), ops[i], lease);
      LeasesAdvanceOverRuns(hardBudget, ops, i + 1, j, lease);
    }
  }

  /** What a release answers, and that a refused one changes nothing. */
  lemma ReleaseAnswers(s: Pool, id: nat, lease: Lease)
    requires Steady(s) && id in s.reqs && Enabled(s, OpRelease(id, lease))
    ensures var (p, out) := Apply(s, OpRelease(id, lease));
      if out == Done then
        id == lease.requestID && Stage(s, lease) == 2 && Stage(p, lease) == 3 && !s.reqs[id].closed
      else p == s && out.Failed? && (s.reqs[id].closed || id != lease.requestID || Stage(s, lease) != 2)
  {
    hide Steady, ViewsExcept, WorkConserving, ReleaseOptional;
    PendingIsOwn(s, id);
    if lease.chunk in s.reqs[id].accepted && s.reqs[id].accepted[lease.chunk] == lease.generation && lease.requestID == id {
      LeasesAreGranted(s, lease);
    }
    ReleaseSettles(s, id, lease);
    LeasesOnlyAdvance(s, OpRelease(id, lease), lease);
  }

  /** Over any run a lease is released once: after that it is refused, whoever presents it. */
  lemma LeaseReleasedAtMostOnce(hardBudget: int, ops: seq<Op>, i: nat, j: nat)
    requires ValidBudget(hardBudget) && Legal(hardBudget, ops) && i < j < |ops|
    requires ops[i].OpRelease? && ops[j].OpRelease? && ops[i].lease == ops[j].lease
    ensures Legal(hardBudget, ops[..i]) && Legal(hardBudget, ops[..j])
    ensures Enabled(After(hardBudget, ops[..i]), ops[i]) && Enabled(After(hardBudget, ops[..j]), ops[j])
    ensures Apply(After(hardBudget, ops[..i]), ops[i]).1 == Done ==>
      var s := After(hardBudget, ops[..j]);
      Apply(s, ops[j]).1.Failed? && Apply(s, ops[j]).0 == s
  {
    PrefixLegal(hardBudget, ops, i);
    PrefixLegal(hardBudget, ops, j);
    var lease := ops[i].lease;
    ReleaseAnswers(After(hardBudget, ops[..i]), ops[i].id, lease);
    ReleaseAnswers(After(hardBudget, ops[..j]), ops[j].id, lease);
    hide Steady, Apply, Stage, Legal, After;
    LeasesAdvanceOverRuns(hardBudget, ops, i + 1, j, lease);
  }

  /** Once closed, a request owns nothing, is in no list, and stays that way whatever is tried. */
  lemma {:induction false} ClosedForever(hardBudget: int, ops: seq<Op>, i: nat, j: nat, id: nat)
    requires ValidBudget(hardBudget) && Legal(hardBudget, ops) && i <= j <= |ops|
    requires Legal(hardBudget, ops[..i]) && id in After(hardBudget, ops[..i]).reqs
    requires After(hardBudget, ops[..i]).reqs[id].closed
    ensures Legal(hardBudget, ops[..j])
    ensures var s := After(hardBudget, ops[..j]);
      id in s.reqs && Blank(s.reqs[id]) && id !in s.requests && id !in s.waiters
    decreases j - i
  {
    hide Apply, Enabled, Legal, After, WorkConserving, Sound;
    PrefixLegal(hardBudget, ops, i);
    PrefixLegal(hardBudget, ops, j);
    var s := After(hardBudget, ops[..i]);
    if i < j {
      if id == Subject(ops[i]) && !ops[i].OpRegister? {
        SubjectAges(s, ops[i]);
      } else {
        NoRequestIsZero(s);
        OthersAge(s, ops[i], id);
      }
      ClosedForever(hardBudget, ops, i + 1, j, id);
    } else {
      ClosedIsUnregistered(s, id);
      ClosedIsUnlisted(s, id);
    }
  }

  lemma ClosedIsUnlisted(s: Pool, id: nat)
    requires Inv(s) && id in s.reqs && Blank(s.reqs[id])
    ensures id !in s.waiters
  {
  }
}

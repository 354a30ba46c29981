/**
 What the allocator gives, besides keeping its accounts: shares as large as they can be, a reason for every
 wait, service in the order of asking, and no new chunk while an old one is free.
 */
module MediaBufferPromises {
  import opened Wrappers
  import opened MediaBufferModel
  import opened MediaBufferInvariant
  import opened MediaBufferSchedule
  import opened MediaBufferOperations
  import opened MediaBufferClose
  import opened MediaBufferRuns

  // ---- shares ---------------------------------------------------------------------------------

  lemma DivisionIsLargest(b: int, n: nat, t: int)
    requires n > 0 && b >= 0 && t >= 0 && n * t <= b
    ensures t <= b / n
  {
    var d := b / n;
    assert b < d * n + n == (d + 1) * n;
    if t > d {
      MulMonotone(d + 1, t, n);
    }
  }

  lemma WholeChunks(t: int, q: int)
    requires 0 <= t <= q && t % 32768 == 0
    ensures t <= 32768 * (q / 32768)
  {
  }

  /** Every request's target is the largest whole number of chunks, within the cap of 512 MiB, that the budget has
      for each of the registered requests. */
  lemma ShareIsLargest(s: Pool, id: nat, t: int)
    requires Steady(s) && id in s.requests
    ensures id in s.reqs
    ensures var target := s.reqs[id].target;
      && target % 32768 == 0 && 0 <= target <= 536870912 && |s.requests| * target <= s.hardBudget
      && (t % 32768 == 0 && 0 <= t <= 536870912 && |s.requests| * t <= s.hardBudget ==> t <= target)
  {
    var n := |s.requests|;
    TargetsAre(s, id);
    hide Steady, TargetFor;
    AlignedTarget(s.hardBudget, n);
    SharesFitBudget(s.hardBudget, n);
    if t % 32768 == 0 && 0 <= t <= 536870912 && n * t <= s.hardBudget {
      DivisionIsLargest(s.hardBudget, n, t);
      WholeChunks(t, s.hardBudget / n);
      TargetIsChunks(s.hardBudget, n);
    }
  }

  lemma TargetsAre(s: Pool, id: nat)
    requires Steady(s) && id in s.requests
    ensures |s.requests| > 0 && s.hardBudget >= 0 && id in s.reqs
    ensures s.reqs[id].target == TargetFor(s.hardBudget, |s.requests|)
  {
    hide TargetFor;
  }

  lemma TargetIsChunks(hardBudget: int, n: nat)
    requires n > 0 && hardBudget >= 0
    ensures TargetFor(hardBudget, n) >= 32768 * (hardBudget / n / 32768) || TargetFor(hardBudget, n) >= 536870912
  {
  }

  // ---- why a request waits --------------------------------------------------------------------

  /** In every steady pool a request that waits is told one reason, and the right one: debt if it owns more than
      its target, the target if it owns just that, and otherwise the pool, which then has lent its whole budget.
      Whoever does not wait is told none. */
  lemma BlockerExactly(s: Pool, id: nat)
    requires Steady(s) && id in s.reqs
    ensures var r, b := s.reqs[id], RequestBlocker(s, id);
      && (b == BlockerNone <==> !r.waiting)
      && (b == BlockerDebt <==> r.waiting && r.owned > r.target)
      && (b == BlockerAtTarget <==> r.waiting && r.owned == r.target)
      && (b == BlockerPoolExhausted <==> r.waiting && r.owned < r.target)
      && (b == BlockerPoolExhausted ==> s.ownedBytes == s.hardBudget)
  {
    hide *;
    if s.reqs[id].waiting {
      WaitingIs(s, id);
      if s.reqs[id].owned < s.reqs[id].target {
        InvOf(s);
        FullPool(s);
      }
    }
    KnownIs(s, id);
    BlockerOf(s, id);
  }

  /** What a steady pool says of a request that waits. */
  lemma WaitingIs(s: Pool, id: nat)
    requires Steady(s) && id in s.reqs && s.reqs[id].waiting
    ensures var r := s.reqs[id];
      r.pending.None? && !r.closed && (r.owned < r.target ==> !PoolSpace(s))
  {
    hide *;
    WaitingIsListed(s, id);
    NotGrantable(s, id);
    WaiterIs(s, id);
    RefusedForSpace(s, id);
  }

  lemma RefusedForSpace(s: Pool, id: nat)
    requires id in s.reqs && RequestOk(id, s.reqs[id]) && !CanGrant(s, id)
    requires s.reqs[id].waiting && s.reqs[id].pending.None? && !s.reqs[id].closed
    ensures s.reqs[id].owned < s.reqs[id].target ==> !PoolSpace(s)
  {
    ChunksApart(s.reqs[id]);
  }

  lemma BlockerOf(s: Pool, id: nat)
    requires id in s.reqs && RequestOk(id, s.reqs[id])
    requires var r := s.reqs[id]; r.waiting ==> r.pending.None? && !r.closed && (r.owned < r.target ==> !PoolSpace(s))
    ensures var r, b := s.reqs[id], RequestBlocker(s, id);
      && (b == BlockerNone <==> !r.waiting)
      && (b == BlockerDebt <==> r.waiting && r.owned > r.target)
      && (b == BlockerAtTarget <==> r.waiting && r.owned == r.target)
      && (b == BlockerPoolExhausted <==> r.waiting && r.owned < r.target)
  {
    ChunksApart(s.reqs[id]);
  }

  lemma InvOf(s: Pool)
    requires Steady(s)
    ensures Inv(s)
  {
    hide Inv;
  }

  lemma WaitingIsListed(s: Pool, id: nat)
    requires Steady(s) && id in s.reqs && s.reqs[id].waiting
    ensures Inv(s) && id in s.waiters
  {
  }

  lemma KnownIs(s: Pool, id: nat)
    requires Steady(s) && id in s.reqs
    ensures RequestOk(id, s.reqs[id])
  {
    ClosedIsUnregistered(s, id);
  }

  lemma ChunksApart(r: Request)
    requires r.owned % 32768 == 0 && r.target % 32768 == 0
    ensures r.owned < r.target ==> r.owned + CHUNK <= r.target
  {
  }

  // ---- the order of asking --------------------------------------------------------------------

  /** Who joins the waiters by an operation: a request that asks, and has not asked yet. */
  function Joining(s: Pool, op: Op): seq<nat> {
    if op.OpRequest? && op.id in s.reqs
       && !s.reqs[op.id].closed && s.reqs[op.id].pending.None? && !s.reqs[op.id].waiting
    then [op.id] else []
  }

  /** The waiters of `p` are those of `ws` that still wait, in that order. */
  ghost predicate Queued(ws: seq<nat>, p: Pool) {
    (forall id :: id in ws ==> id in p.reqs) && p.waiters == StillWaiting(ws, p.reqs)
  }

  lemma PassQueues(q: Pool)
    requires Core(q) && WaitersAre(q, q.waiters)
    ensures WaitersKnown(q) && Queued(q.waiters, Schedule(q))
  {
    ScheduleIsFairAndWorkConserving(q);
    hide Core, OnlyGrants, NobodyOvertaken, WorkConserving, Schedule;
    assert OnlyGrants(q, Schedule(q));
    KeysOf(q, Schedule(q));
  }

  lemma KeysOf(q: Pool, p: Pool)
    requires OnlyGrants(q, p)
    ensures p.reqs.Keys == q.reqs.Keys
  {
  }

  lemma {:induction false} StillFront(x: nat, ws: seq<nat>, reqs: map<nat, Request>)
    requires x in reqs && forall id :: id in ws ==> id in reqs
    ensures StillWaiting([x] + ws, reqs) == (if reqs[x].waiting then [x] else []) + StillWaiting(ws, reqs)
  {
    if |ws| > 0 {
      StillFront(x, ws[..|ws| - 1], reqs);
      assert ([x] + ws)[..|ws|] == [x] + ws[..|ws| - 1];
    } else {
      assert [x] + ws == [x] && [x][..0] == [];
    }
  }

  /** One who does not wait any more can be left out. */
  lemma {:induction false} StillWithout(ws: seq<nat>, id: nat, reqs: map<nat, Request>)
    requires (forall x :: x in ws ==> x in reqs) && (id in reqs ==> !reqs[id].waiting)
    ensures StillWaiting(WithoutFirst(ws, id), reqs) == StillWaiting(ws, reqs)
  {
    if |ws| > 0 {
      assert ws == [ws[0]] + ws[1..];
      StillFront(ws[0], ws[1..], reqs);
      if ws[0] != id {
        StillWithout(ws[1..], id, reqs);
        StillFront(ws[0], WithoutFirst(ws[1..], id), reqs);
      }
    }
  }

  lemma {:induction false} AllStillWaiting(ws: seq<nat>, reqs: map<nat, Request>)
    requires forall x :: x in ws ==> x in reqs && reqs[x].waiting
    ensures StillWaiting(ws, reqs) == ws
  {
    if |ws| > 0 {
      AllStillWaiting(ws[..|ws| - 1], reqs);
    }
  }

  lemma AsBefore(s: Pool, p: Pool)
    requires Steady(s) && p.waiters == s.waiters && p.reqs.Keys == s.reqs.Keys
    requires forall x :: x in s.reqs ==> p.reqs[x].waiting == s.reqs[x].waiting
    ensures Queued(s.waiters, p)
  {
    WaitersWait(s);
    hide Steady;
    AllStillWaiting(s.waiters, p.reqs);
  }

  lemma WaitersWait(s: Pool)
    requires Steady(s)
    ensures forall x :: x in s.waiters ==> x in s.reqs && s.reqs[x].waiting
    ensures Core(s) && WaitersAre(s, s.waiters) && Open(s) && Inv(s)
  {
  }

  /** One request left the list before a pass that was run on the rest. */
  lemma QueuedWithout(ws: seq<nat>, id: nat, p: Pool)
    requires Queued(WithoutFirst(ws, id), p) && (forall x :: x in ws ==> x in p.reqs)
    requires id in p.reqs && !p.reqs[id].waiting
    ensures Queued(ws, p)
  {
    StillWithout(ws, id, p.reqs);
  }

  lemma RegisterQueues(s: Pool)
    requires Steady(s)
    ensures Registered(s) && WaitersKnown(s) && Queued(s.waiters, Register(s))
  {
    WaitersWait(s);
    hide Steady, Inv, Core, WaitersAre, Open, RecomputeTargets, Register, Schedule;
    EnrolledIs(s);
    EnrollKeepsCore(s);
    var q := RecomputeTargets(Enrolled(s));
    RecomputeKeeps(Enrolled(s));
    SoundOf(q);
    PassQueues(q);
    assert q.waiters == s.waiters;
  }

  lemma SoundOf(q: Pool)
    requires Inv(q)
    ensures Core(q) && WaitersAre(q, q.waiters)
  {
    hide Core, WaitersAre;
  }

  lemma RequestQueues(s: Pool, id: nat)
    requires Steady(s) && id in s.reqs
    ensures WaitersKnown(s) && Queued(s.waiters + Joining(s, OpRequest(id)), RequestOptional(s, id).0)
  {
    WaitersWait(s);
    ClosedIsUnregistered(s, id);
    assert s.waiters + [] == s.waiters;
    hide Steady, Inv, Core, WaitersAre, Open, Schedule;
    var r := s.reqs[id];
    if r.closed || r.pending.Some? || r.waiting {
      AsBefore(s, s);
    } else {
      var q := SetRequest(s, id, r.(waiting := true)).(waiters := s.waiters + [id]);
      JoinKeepsInv(s, id);
      SoundOf(q);
      PassQueues(q);
    }
  }

  lemma AcceptQueues(s: Pool, id: nat)
    requires Steady(s) && id in s.reqs
    ensures Queued(s.waiters, AcceptOptional(s, id).0) && Queued(s.waiters, ReceiveNotification(s, id))
  {
    hide Steady;
    AsBefore(s, AcceptOptional(s, id).0);
    AsBefore(s, ReceiveNotification(s, id));
  }

  lemma ReclaimIs(s: Pool, id: nat)
    requires id in s.reqs && s.reqs[id].pending.Some? && s.reqs[id].pending.value.chunk in s.chunks
    ensures ReclaimPending(s, id).waiters == s.waiters
    ensures ReclaimPending(s, id).allocatedBytes == s.allocatedBytes
  {
  }

  lemma ReleaseIs(s: Pool, id: nat, c: nat)
    requires id in s.reqs && c in s.chunks
    ensures ReleaseAccepted(s, id, c).waiters == s.waiters
    ensures ReleaseAccepted(s, id, c).allocatedBytes == s.allocatedBytes
  {
  }

  lemma CancelQueues(s: Pool, id: nat)
    requires Steady(s) && id in s.reqs
    ensures PendingKnown(s, id) && WaitersKnown(s) && Queued(s.waiters, CancelOptional(s, id).0)
  {
    WaitersWait(s);
    ClosedIsUnregistered(s, id);
    var r := s.reqs[id];
    hide Steady, Inv, Core, WaitersAre, Open, Schedule, ReclaimPending;
    if !r.closed && r.pending.Some? {
      SoundFrom(s);
      ReclaimKeepsSound(s, id);
      ReclaimIs(s, id);
      SoundParts(ReclaimPending(s, id));
      PassQueues(ReclaimPending(s, id));
    } else if !r.closed && r.waiting {
      CancelWaiting(s, id);
      WaitersWait(RemoveWaiter(s, id));
      AsBefore(RemoveWaiter(s, id), RemoveWaiter(s, id));
      QueuedWithout(s.waiters, id, RemoveWaiter(s, id));
    } else {
      AsBefore(s, s);
    }
  }

  lemma SoundFrom(s: Pool)
    requires Inv(s)
    ensures Sound(s)
  {
    hide Sound;
  }

  lemma SoundParts(q: Pool)
    requires Sound(q)
    ensures Core(q) && WaitersAre(q, q.waiters)
  {
    hide Core, WaitersAre;
  }

  lemma ReleaseQueues(s: Pool, id: nat, lease: Lease)
    requires Steady(s) && id in s.reqs
    ensures WaitersKnown(s) && Queued(s.waiters, ReleaseOptional(s, id, lease).0)
  {
    WaitersWait(s);
    ClosedIsUnregistered(s, id);
    hide Steady, Inv, Core, WaitersAre, Open, Schedule, ReleaseAccepted, ValidLease;
    if !s.reqs[id].closed && ValidLease(s, id, lease) {
      SoundFrom(s);
      ValidLeaseIs(s, id, lease);
      ReleaseKeepsSound(s, id, lease.chunk);
      ReleaseIs(s, id, lease.chunk);
      SoundParts(ReleaseAccepted(s, id, lease.chunk));
      PassQueues(ReleaseAccepted(s, id, lease.chunk));
    } else {
      AsBefore(s, s);
    }
  }

  lemma VacateWaiters(s: Pool, id: nat, order: seq<nat>)
    requires id in s.reqs && PendingKnown(s, id) && forall c :: c in order ==> c in s.chunks
    ensures Vacate(s, id, order).waiters == if s.reqs[id].waiting then WithoutFirst(s.waiters, id) else s.waiters
  {
    hide ReleaseAll, ReclaimPending, WithoutFirst;
  }

  lemma CloseQueues(s: Pool, id: nat, order: seq<nat>)
    requires Steady(s) && id in s.reqs && ValidOrder(s, id, order)
    ensures Registered(s) && WaitersKnown(s) && PendingKnown(s, id) && forall c :: c in order ==> c in s.chunks
    ensures Queued(s.waiters, Close(s, id, order))
  {
    CloseSettles(s, id, order);
    WaitersWait(s);
    ClosedIsUnregistered(s, id);
    hide Steady, Inv, Core, WaitersAre, Open, Schedule, RecomputeTargets, Vacate, ValidOrder, WithoutRequest;
    if s.reqs[id].closed {
      AsBefore(s, s);
    } else {
      VacatedByClose(s, id, order);
      VacateWaiters(s, id, order);
      var v := Vacate(s, id, order);
      DepartKeepsCore(v, id);
      var q := RecomputeTargets(WithoutRequest(v, id));
      RecomputeKeeps(WithoutRequest(v, id));
      SoundOf(q);
      PassQueues(q);
      DepartIs(v, id);
      hide Vacated;
      ClosedLast(s, Close(s, id, order), id, v.waiters);
    }
  }

  lemma DepartIs(v: Pool, id: nat)
    requires id in v.reqs
    ensures WithoutRequest(v, id).waiters == v.waiters && WithoutRequest(v, id).allocatedBytes == v.allocatedBytes
  {
  }

  lemma ClosedLast(s: Pool, p: Pool, id: nat, ws: seq<nat>)
    requires Queued(ws, p) && id in p.reqs && !p.reqs[id].waiting && (forall x :: x in s.reqs ==> x in p.reqs)
    requires ws == s.waiters || ws == WithoutFirst(s.waiters, id)
    requires forall x :: x in s.waiters ==> x in s.reqs
    ensures Queued(s.waiters, p)
  {
    if ws != s.waiters {
      QueuedWithout(s.waiters, id, p);
    }
  }

  /** Waiters are kept in the order in which they asked: an operation leaves those that still wait in their order,
      and a request that starts to wait stands behind them all. */
  lemma ApplyKeepsArrivalOrder(s: Pool, op: Op)
    requires Steady(s) && Enabled(s, op)
    ensures Queued(s.waiters + Joining(s, op), Apply(s, op).0)
  {
    assert s.waiters + [] == s.waiters;
    hide Steady, Queued, Schedule;
    match op
    case OpRegister => RegisterQueues(s);
    case OpRequest(id) => RequestQueues(s, id);
    case OpReceive(id) => AcceptQueues(s, id);
    case OpAccept(id) => AcceptQueues(s, id);
    case OpCancel(id) => CancelQueues(s, id);
    case OpRelease(id, lease) => ReleaseQueues(s, id, lease);
    case OpClose(id, order) => CloseQueues(s, id, order);
  }

  // ---- chunks are reused ----------------------------------------------------------------------

  /** From `s` to `p` chunks were made only when none was free. */
  predicate Thrifty(s: Pool, p: Pool) {
    s.allocatedBytes <= p.allocatedBytes && (s.allocatedBytes < p.allocatedBytes ==> p.free == [])
  }

  lemma {:induction false} PassIsThrifty(q: Pool, k: nat)
    requires WaitersKnown(q) && k <= |q.waiters|
    ensures Thrifty(q, ScheduleTo(q, k)) && |ScheduleTo(q, k).free| <= |q.free|
  {
    if k > 0 {
      PassIsThrifty(q, k - 1);
      hide ScheduleTo, CanGrant;
      OneIsThrifty(ScheduleTo(q, k - 1), q.waiters[k - 1]);
      NextPass(q, k);
    }
  }

  lemma NextPass(q: Pool, k: nat)
    requires WaitersKnown(q) && 0 < k <= |q.waiters|
    ensures q.waiters[k - 1] in q.reqs && q.waiters[k - 1] in ScheduleTo(q, k - 1).reqs
    ensures ScheduleTo(q, k) == ScheduleOne(ScheduleTo(q, k - 1), q.waiters[k - 1])
  {
  }

  lemma OneIsThrifty(p: Pool, id: nat)
    requires id in p.reqs
    ensures var q := ScheduleOne(p, id);
      && |q.free| <= |p.free| && p.allocatedBytes <= q.allocatedBytes
      && (p.allocatedBytes < q.allocatedBytes ==> p.free == [])
  {
  }

  lemma {:induction false} RetargetKeepsBytes(s: Pool, target: int, k: nat)
    requires Registered(s) && k <= |s.requests|
    ensures var p := RetargetTo(s, target, k); p.allocatedBytes == s.allocatedBytes && p.waiters == s.waiters
  {
    if k > 0 {
      RetargetKeepsBytes(s, target, k - 1);
    }
  }

  lemma {:induction false} ReleaseAllKeepsBytes(s: Pool, id: nat, order: seq<nat>)
    requires id in s.reqs && forall c :: c in order ==> c in s.chunks
    ensures ReleaseAll(s, id, order).allocatedBytes == s.allocatedBytes
  {
    if |order| > 0 {
      ReleaseAllKeepsBytes(s, id, order[..|order| - 1]);
    }
  }

  lemma VacateKeepsBytes(s: Pool, id: nat, order: seq<nat>)
    requires id in s.reqs && PendingKnown(s, id) && forall c :: c in order ==> c in s.chunks
    ensures Vacate(s, id, order).allocatedBytes == s.allocatedBytes
  {
    var p := Unpend(Unlist(SetRequest(s, id, s.reqs[id].(closed := true)), id), id);
    ReleaseAllKeepsBytes(p, id, order);
    hide ReleaseAll;
  }

  lemma SchedulesThriftily(s: Pool, q: Pool)
    requires WaitersKnown(q) && q.allocatedBytes == s.allocatedBytes
    ensures Thrifty(s, Schedule(q))
  {
    PassIsThrifty(q, |q.waiters|);
  }

  lemma RebalancesThriftily(s: Pool, q: Pool)
    requires Registered(q) && WaitersKnown(q) && q.allocatedBytes == s.allocatedBytes
    ensures Thrifty(s, Schedule(RecomputeTargets(q)))
  {
    if |q.requests| > 0 {
      RetargetKeepsBytes(q, TargetFor(q.hardBudget, |q.requests|), |q.requests|);
    }
    hide RetargetTo, Schedule;
    SchedulesThriftily(s, RecomputeTargets(q));
  }

  /** Memory grows only for want of a free chunk: an operation after which more bytes are allocated leaves no chunk
      free, and none ever gives bytes back. */
  lemma ApplyIsThrifty(s: Pool, op: Op)
    requires Steady(s) && Enabled(s, op)
    ensures Thrifty(s, Apply(s, op).0)
  {
    ReadyFor(s, op);
    hide Steady, Schedule, Thrifty, RecomputeTargets;
    match op
    case OpRegister =>
      RegistersThriftily(s);
    case OpRequest(id) =>
      RequestsThriftily(s, id);
    case OpReceive(id) => NothingMade(s, ReceiveNotification(s, id));
    case OpAccept(id) => NothingMade(s, AcceptOptional(s, id).0);
    case OpCancel(id) => CancelsThriftily(s, id);
    case OpRelease(id, lease) => ReleasesThriftily(s, id, lease);
    case OpClose(id, order) => ClosesThriftily(s, id, order);
  }

  lemma NothingMade(s: Pool, p: Pool)
    requires p.allocatedBytes == s.allocatedBytes
    ensures Thrifty(s, p)
  {
  }

  lemma RegistersThriftily(s: Pool)
    requires Registered(s) && WaitersKnown(s)
    ensures Thrifty(s, Register(s))
  {
    hide Schedule, RecomputeTargets;
    RebalancesThriftily(s, Enrolled(s));
  }

  lemma RequestsThriftily(s: Pool, id: nat)
    requires WaitersKnown(s) && id in s.reqs
    ensures Thrifty(s, RequestOptional(s, id).0)
  {
    hide Schedule;
    var r := s.reqs[id];
    if !(r.closed || r.pending.Some? || r.waiting) {
      SchedulesThriftily(s, SetRequest(s, id, r.(waiting := true)).(waiters := s.waiters + [id]));
    }
  }

  lemma CancelsThriftily(s: Pool, id: nat)
    requires WaitersKnown(s) && id in s.reqs && PendingKnown(s, id)
    ensures Thrifty(s, CancelOptional(s, id).0)
  {
    hide Schedule, ReclaimPending;
    if !s.reqs[id].closed && s.reqs[id].pending.Some? {
      ReclaimIs(s, id);
      KeysOfReclaim(s, id);
      SchedulesThriftily(s, ReclaimPending(s, id));
    }
  }

  lemma KeysOfReclaim(s: Pool, id: nat)
    requires WaitersKnown(s) && id in s.reqs && s.reqs[id].pending.Some? && s.reqs[id].pending.value.chunk in s.chunks
    ensures WaitersKnown(ReclaimPending(s, id))
  {
  }

  lemma ReleasesThriftily(s: Pool, id: nat, lease: Lease)
    requires WaitersKnown(s) && id in s.reqs
    ensures Thrifty(s, ReleaseOptional(s, id, lease).0)
  {
    hide Schedule, ReleaseAccepted;
    if !s.reqs[id].closed && ValidLease(s, id, lease) {
      ReleaseIs(s, id, lease.chunk);
      KeysOfRelease(s, id, lease.chunk);
      SchedulesThriftily(s, ReleaseAccepted(s, id, lease.chunk));
    }
  }

  lemma KeysOfRelease(s: Pool, id: nat, c: nat)
    requires WaitersKnown(s) && id in s.reqs && c in s.chunks
    ensures WaitersKnown(ReleaseAccepted(s, id, c))
  {
  }

  lemma ClosesThriftily(s: Pool, id: nat, order: seq<nat>)
    requires Registered(s) && WaitersKnown(s) && id in s.reqs && PendingKnown(s, id)
    requires forall c :: c in order ==> c in s.chunks
    ensures Thrifty(s, Close(s, id, order))
  {
    hide Schedule, RecomputeTargets, Vacate;
    if !s.reqs[id].closed {
      VacateKeepsBytes(s, id, order);
      DepartIs(Vacate(s, id, order), id);
      RebalancesThriftily(s, WithoutRequest(Vacate(s, id, order), id));
    }
  }
}

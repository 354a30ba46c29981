/**
 The public operations of the allocator: each keeps the invariant and is work-conserving, and each
 shows a request only the transitions that the copy protocol relies on.

 A `View` is what a request's own goroutine can tell of it: whether it waits, is closed or notified, its
 pending grant and the chunks it has accepted. Operations on one request change the views of others at most by
 a grant of one chunk.
 */
module MediaBufferOperations {
  import opened Wrappers
  import opened MediaBufferModel
  import opened MediaBufferInvariant
  import opened MediaBufferSchedule

  /** What the goroutines serving a request can see of it. */
  datatype View = View(waiting: bool, closed: bool, notify: bool, pending: Option<Lease>, accepted: map<nat, nat>)

  function ViewOf(r: Request): View {
    View(r.waiting, r.closed, r.notify, r.pending, r.accepted)
  }

  /** A chunk was granted to the waiting request, under a generation in `(lo, hi]`. */
  ghost predicate ViewGranted(id: nat, v: View, v': View, lo: nat, hi: nat) {
    && v.waiting && v.pending.None? && v'.pending.Some?
    && lo < v'.pending.value.generation <= hi
    && v'.pending.value.requestID == id
    && v'.pending.value.chunk !in v.accepted
    && v' == v.(waiting := false, notify := true, pending := v'.pending)
  }

  /** What others may do to a request: nothing, or have the scheduler grant it one chunk. */
  ghost predicate ViewOther(id: nat, v: View, v': View, lo: nat, hi: nat) {
    v' == v || ViewGranted(id, v, v', lo, hi)
  }

  /** Requests stay known, and new ones start out empty. */
  ghost predicate Newcomers(s: Pool, p: Pool) {
    && (forall id :: id in s.reqs ==> id in p.reqs)
    && (forall id :: id in p.reqs && id !in s.reqs ==> ViewOf(p.reqs[id]) == ViewOf(NEW_REQUEST))
  }

  /** The views of every request between `s` and `p`. */
  ghost predicate ViewsAdvance(s: Pool, p: Pool) {
    && Newcomers(s, p)
    && s.nextGrant <= p.nextGrant
    && (forall id :: id in s.reqs ==>
      ViewOther(id, ViewOf(s.reqs[id]), ViewOf(p.reqs[id]), s.nextGrant, p.nextGrant))
  }

  ghost predicate Steady(s: Pool) {
    Inv(s) && WorkConserving(s)
  }

  lemma OnlyGrantsAdvance(s: Pool, p: Pool)
    requires OnlyGrants(s, p)
    ensures ViewsAdvance(s, p)
  {
  }

  lemma OnlyGrantsKeepTargets(s: Pool, p: Pool)
    requires OnlyGrants(s, p) && SameRegistry(s, p) && Registered(s) && Registered(p) && Targets(s) && Open(s)
    ensures Targets(p) && Open(p)
  {
    forall id | id in p.requests
      ensures p.reqs[id].target == s.reqs[id].target && p.reqs[id].closed == s.reqs[id].closed
    {
      assert id in s.reqs;
    }
  }

  /** A scheduling pass at the end of an operation settles the pool. */
  lemma ScheduleSettles(s: Pool)
    requires Inv(s)
    ensures var p := Schedule(s);
      && Steady(p) && SameRegistry(s, p) && p.debtBytes == s.debtBytes && ViewsAdvance(s, p)
  {
    ScheduleIsFairAndWorkConserving(s);
    ScheduleKeeps(s);
    OnlyGrantsKeepTargets(s, Schedule(s));
    OnlyGrantsAdvance(s, Schedule(s));
  }

  /** The views of all requests but `id`. */
  ghost predicate ViewsExcept(s: Pool, p: Pool, id: nat) {
    && Newcomers(s, p)
    && s.nextGrant <= p.nextGrant
    && (forall x :: x in s.reqs && x != id ==>
      ViewOther(x, ViewOf(s.reqs[x]), ViewOf(p.reqs[x]), s.nextGrant, p.nextGrant))
  }

  /** An operation on `id` ends with a pass: what it did first, and what the pass may add. */
  lemma ThenSchedule(s: Pool, q: Pool, id: nat)
    requires id in s.reqs && q.reqs.Keys == s.reqs.Keys && q.nextGrant == s.nextGrant && Inv(q)
    requires forall x :: x in s.reqs && x != id ==> q.reqs[x] == s.reqs[x]
    ensures var p := Schedule(q);
      && Steady(p) && p.debtBytes == q.debtBytes && ViewsExcept(s, p, id) && p.reqs.Keys == s.reqs.Keys
      && ViewOther(id, ViewOf(q.reqs[id]), ViewOf(p.reqs[id]), s.nextGrant, p.nextGrant)
  {
    hide Core, WaitersAre, Targets, Open;
    ScheduleSettles(q);
  }

  // ---- requesting, receiving and accepting ----------------------------------------------------

  lemma ClosedIsUnregistered(s: Pool, id: nat)
    requires Inv(s) && id in s.reqs
    ensures s.reqs[id].closed <==> id !in s.requests
    ensures s.reqs[id].closed ==> Blank(s.reqs[id])
    ensures RequestOk(id, s.reqs[id]) && PendingKnown(s, id)
  {
    KnownRequest(s, id);
  }

  lemma KnownRequest(s: Pool, id: nat)
    requires Sound(s) && id in s.reqs
    ensures RequestOk(id, s.reqs[id]) && PendingKnown(s, id)
  {
    if s.reqs[id].pending.Some? {
      assert Holds(s.reqs[id], s.reqs[id].pending.value.chunk, s.reqs[id].pending.value.generation);
    }
  }

  /** A request whose target and closed flag stay keeps the targets and the registry open. */
  lemma UpdateKeepsTargets(s: Pool, p: Pool, id: nat)
    requires Sound(s) && id in s.reqs && SameRegistry(s, p)
    requires p.reqs == s.reqs[id := p.reqs[id]]
    requires p.reqs[id].target == s.reqs[id].target && p.reqs[id].closed == s.reqs[id].closed
    ensures Registered(p) && Targets(p) && (Open(s) ==> Open(p))
  {
    hide RequestsOk, Recount, Balanced, FreeList, Generations, Ownership;
  }

  lemma JoinKeepsInv(s: Pool, id: nat)
    requires Inv(s) && id in s.requests && !s.reqs[id].waiting && s.reqs[id].pending.None?
    ensures Inv(SetRequest(s, id, s.reqs[id].(waiting := true)).(waiters := s.waiters + [id]))
  {
    hide Recount, FreeList, Generations, Ownership, Balanced, Targets, Open;
    var r := s.reqs[id].(waiting := true);
    var p := SetRequest(s, id, r);
    ClosedIsUnregistered(s, id);
    TouchKeepsCore(s, id, r);
    CoreIgnoresWaiters(p, s.waiters + [id]);
    UpdateKeepsTargets(s, p.(waiters := s.waiters + [id]), id);
  }

  lemma RequestSettles(s: Pool, id: nat)
    requires Steady(s) && id in s.reqs
    ensures var (p, out) := RequestOptional(s, id);
      var v, v' := ViewOf(s.reqs[id]), ViewOf(p.reqs[id]);
      && out == (if v.closed then Failed(ErrClosed) else Done)
      && Steady(p) && p.debtBytes == s.debtBytes && ViewsExcept(s, p, id)
      && (if v.closed || v.pending.Some? || v.waiting then p == s
          else ViewOther(id, v.(waiting := true), v', s.nextGrant, p.nextGrant))
  {
    hide Inv, WorkConserving;
    var r := s.reqs[id];
    if !(r.closed || r.pending.Some? || r.waiting) {
      ClosedIsUnregistered(s, id);
      JoinKeepsInv(s, id);
      ThenSchedule(s, SetRequest(s, id, r.(waiting := true)).(waiters := s.waiters + [id]), id);
    }
  }

  /** Changing flags other than `waiting` and `closed` keeps the whole pool steady. */
  lemma TouchKeepsInv(s: Pool, id: nat, r: Request)
    requires Inv(s) && id in s.requests
    requires RequestOk(id, r) && r.owned == s.reqs[id].owned && r.target == s.reqs[id].target
    requires r.debt == s.reqs[id].debt
    requires r.waiting == s.reqs[id].waiting && r.closed == s.reqs[id].closed
    requires forall c, g :: Holds(r, c, g) <==> Holds(s.reqs[id], c, g)
    ensures Inv(SetRequest(s, id, r))
  {
    hide Recount, FreeList, Generations, Ownership, Balanced, Targets, Open;
    TouchKeepsCore(s, id, r);
    UpdateKeepsTargets(s, SetRequest(s, id, r), id);
  }

  /** The same waiters over the same pool space, none of them newly grantable. */
  lemma BlockedStayBlocked(s: Pool, p: Pool)
    requires WaitersKnown(s) && WorkConserving(s)
    requires p.free == s.free && p.allocatedBytes == s.allocatedBytes && p.hardBudget == s.hardBudget
    requires forall id :: id in p.waiters ==> id in s.waiters && id in p.reqs && p.reqs[id] == s.reqs[id]
    ensures WorkConserving(p)
  {
    forall id | id in p.waiters
      ensures !CanGrant(p, id)
    {
      assert !CanGrant(s, id);
    }
  }

  lemma ReceiveSettles(s: Pool, id: nat)
    requires Steady(s) && id in s.reqs
    ensures var p := ReceiveNotification(s, id);
      && Steady(p) && p.debtBytes == s.debtBytes && ViewsExcept(s, p, id)
      && ViewOf(p.reqs[id]) == ViewOf(s.reqs[id]).(notify := false)
  {
    hide Core, Targets, Open;
    var r := s.reqs[id];
    ClosedIsUnregistered(s, id);
    if !r.notify {
      assert s.reqs[id := r.(notify := false)] == s.reqs;
    } else {
      TouchKeepsInv(s, id, r.(notify := false));
      BlockedStayBlocked(s, ReceiveNotification(s, id));
    }
  }

  lemma AcceptSettles(s: Pool, id: nat)
    requires Steady(s) && id in s.reqs
    ensures var (p, out) := AcceptOptional(s, id);
      var v, v' := ViewOf(s.reqs[id]), ViewOf(p.reqs[id]);
      && Steady(p) && p.debtBytes == s.debtBytes && ViewsExcept(s, p, id)
      && (if v.closed then p == s && out == Failed(ErrClosed)
          else if v.pending.None? then p == s && out == Failed(ErrNoGrant)
          else
            var l := v.pending.value;
            out == MediaBufferModel.Accepted(l) && l.requestID == id && l.chunk !in v.accepted
            && v' == v.(pending := None, notify := false, accepted := v.accepted[l.chunk := l.generation]))
  {
    hide Core, Targets, Open;
    var r := s.reqs[id];
    if !r.closed && r.pending.Some? {
      ClosedIsUnregistered(s, id);
      var r' := AcceptOptional(s, id).0.reqs[id];
      AcceptedIsOk(id, r);
      TouchKeepsInv(s, id, r');
      BlockedStayBlocked(s, AcceptOptional(s, id).0);
    }
  }

  // ---- cancelling and releasing ---------------------------------------------------------------

  lemma ReturnKeepsSound(s: Pool, id: nat, r: Request, c: nat)
    requires Sound(s) && id in s.reqs && id in s.requests
    requires c in s.chunks && s.chunks[c].ownerID == id
    requires forall d, h :: Holds(r, d, h) <==> Holds(s.reqs[id], d, h) && d != c
    requires RequestOk(id, r) && r.owned == s.reqs[id].owned - CHUNK && r.target == s.reqs[id].target
    requires r.waiting == s.reqs[id].waiting && r.closed == s.reqs[id].closed
    ensures Sound(AfterReturn(s, id, r, c)) && AfterReturn(s, id, r, c).debtBytes <= s.debtBytes
  {
    hide Core, Targets, Open, Distinct;
    ReturnKeepsCore(s, id, r, c);
    UpdateKeepsTargets(s, AfterReturn(s, id, r, c), id);
  }

  lemma ReclaimKeepsSound(s: Pool, id: nat)
    requires Sound(s) && id in s.requests && s.reqs[id].pending.Some?
    ensures PendingKnown(s, id)
    ensures var p := ReclaimPending(s, id);
      && Sound(p) && p.debtBytes <= s.debtBytes && SameRegistry(s, p) && p.nextGrant == s.nextGrant
      && p.reqs == s.reqs[id := WithoutPending(s.reqs[id])]
  {
    var r := s.reqs[id];
    assert Holds(r, r.pending.value.chunk, r.pending.value.generation);
    hide Recount, FreeList, Generations, Balanced, Distinct, Targets, Open;
    WithoutPendingIsOk(id, r);
    ReturnKeepsSound(s, id, WithoutPending(r), r.pending.value.chunk);
    ReclaimPendingIs(s, id);
  }

  lemma LeaveKeepsSound(s: Pool, id: nat)
    requires Sound(s) && id in s.requests && s.reqs[id].waiting
    ensures Sound(RemoveWaiter(s, id)) && SameRegistry(s, RemoveWaiter(s, id))
  {
    hide Recount, FreeList, Generations, Ownership, Balanced, Targets, Open;
    WithoutFirstFacts(s.waiters, id);
    var r := s.reqs[id].(waiting := false);
    var p := RemoveWaiter(s, id);
    KnownRequest(s, id);
    TouchKeepsCore(s, id, r);
    CoreIgnoresWaiters(SetRequest(s, id, r), p.waiters);
    UpdateKeepsTargets(s, p, id);
  }

  lemma CancelSettles(s: Pool, id: nat)
    requires Steady(s) && id in s.reqs
    ensures PendingKnown(s, id)
    ensures var (p, out) := CancelOptional(s, id);
      var v, v' := ViewOf(s.reqs[id]), ViewOf(p.reqs[id]);
      && Steady(p) && p.debtBytes <= s.debtBytes && ViewsExcept(s, p, id)
      && (if v.closed then p == s && out == Failed(ErrClosed)
          else out == Done && v' == v.(pending := None, notify := false, waiting := false))
  {
    var r := s.reqs[id];
    ClosedIsUnregistered(s, id);
    hide Sound, Open, WorkConserving;
    if !r.closed && r.pending.Some? {
      ReclaimKeepsSound(s, id);
      UpdateKeepsTargets(s, ReclaimPending(s, id), id);
      ThenSchedule(s, ReclaimPending(s, id), id);
    } else if !r.closed && r.waiting {
      CancelWaiting(s, id);
    }
  }

  lemma CancelWaiting(s: Pool, id: nat)
    requires Steady(s) && id in s.requests && s.reqs[id].waiting
    ensures Steady(RemoveWaiter(s, id)) && ViewsExcept(s, RemoveWaiter(s, id), id)
  {
    hide Core, Targets, Open;
    WithoutFirstFacts(s.waiters, id);
    LeaveKeepsSound(s, id);
    UpdateKeepsTargets(s, RemoveWaiter(s, id), id);
    BlockedStayBlocked(s, RemoveWaiter(s, id));
  }

  /** A lease is accepted for release exactly while the request holds its chunk under its generation. */
  lemma ValidLeaseIs(s: Pool, id: nat, lease: Lease)
    requires Sound(s) && id in s.reqs
    ensures ValidLease(s, id, lease) <==>
      lease.requestID == id && lease.chunk in s.reqs[id].accepted
      && s.reqs[id].accepted[lease.chunk] == lease.generation
  {
    if lease.chunk in s.reqs[id].accepted {
      assert Holds(s.reqs[id], lease.chunk, s.reqs[id].accepted[lease.chunk]);
    }
  }

  lemma AcceptedIsHeld(s: Pool, id: nat, c: nat)
    requires Sound(s) && id in s.requests
    ensures id in s.reqs && (c in s.reqs[id].accepted ==> c in s.chunks && s.chunks[c].ownerID == id)
  {
    hide Recount, FreeList, Generations, Balanced, Distinct, Targets;
    if c in s.reqs[id].accepted {
      assert Holds(s.reqs[id], c, s.reqs[id].accepted[c]);
    }
  }

  lemma AfterReturnIs(s: Pool, id: nat, r: Request, c: nat)
    requires id in s.reqs && c in s.chunks
    ensures var p := AfterReturn(s, id, r, c);
      p.reqs == s.reqs[id := r] && SameRegistry(s, p) && p.nextGrant == s.nextGrant
  {
  }

  lemma ReleaseKeepsSound(s: Pool, id: nat, c: nat)
    requires Sound(s) && id in s.requests && c in s.reqs[id].accepted
    ensures c in s.chunks
    ensures var p := ReleaseAccepted(s, id, c);
      && Sound(p) && p.debtBytes <= s.debtBytes && SameRegistry(s, p) && p.nextGrant == s.nextGrant
      && p.reqs == s.reqs[id := WithoutAccepted(s.reqs[id], c)]
  {
    hide Sound, RequestOk, AfterReturn, ReleaseAccepted, PendingKnown;
    AcceptedIsHeld(s, id, c);
    KnownRequest(s, id);
    var r := s.reqs[id];
    WithoutAcceptedIsOk(id, r, c);
    hide Holds;
    ReturnKeepsSound(s, id, WithoutAccepted(r, c), c);
    ReleaseAcceptedIs(s, id, c);
    AfterReturnIs(s, id, WithoutAccepted(r, c), c);
  }

  lemma ReleaseSettles(s: Pool, id: nat, lease: Lease)
    requires Steady(s) && id in s.reqs
    ensures var (p, out) := ReleaseOptional(s, id, lease);
      var v, v' := ViewOf(s.reqs[id]), ViewOf(p.reqs[id]);
      && Steady(p) && p.debtBytes <= s.debtBytes && ViewsExcept(s, p, id)
      && (if v.closed then p == s && out == Failed(ErrClosed)
          else if lease.requestID == id && lease.chunk in v.accepted && v.accepted[lease.chunk] == lease.generation then
            out == Done && ViewOther(id, v.(accepted := v.accepted - {lease.chunk}), v', s.nextGrant, p.nextGrant)
          else p == s && out == Failed(ErrOwnership))
  {
    hide Sound, Open, WorkConserving, ValidLease;
    ValidLeaseIs(s, id, lease);
    if !s.reqs[id].closed && ValidLease(s, id, lease) {
      ClosedIsUnregistered(s, id);
      ReleaseKeepsSound(s, id, lease.chunk);
      UpdateKeepsTargets(s, ReleaseAccepted(s, id, lease.chunk), id);
      ThenSchedule(s, ReleaseAccepted(s, id, lease.chunk), id);
    }
  }

  // ---- registering ----------------------------------------------------------------------------

  lemma AlignedTarget(hardBudget: int, n: nat)
    requires n > 0
    ensures 0 <= TargetFor(hardBudget, n) <= REQUEST_CAP && Aligned(TargetFor(hardBudget, n))
  {
  }

  /** The first `k` registered requests have the new target; nothing else but the counters moved. */
  ghost predicate RetargetedTo(s: Pool, p: Pool, target: int, k: nat)
    requires Registered(s) && k <= |s.requests|
  {
    && p == s.(reqs := p.reqs, baseOnly := p.baseOnly, indebted := p.indebted, debtBytes := p.debtBytes)
    && p.reqs.Keys == s.reqs.Keys
    && (forall id :: id in s.requests[..k] ==> p.reqs[id] == WithTarget(s.reqs[id], target))
    && (forall id :: id in s.reqs && id !in s.requests[..k] ==> p.reqs[id] == s.reqs[id])
  }

  lemma NextToRetarget(s: Pool, k: nat)
    requires Core(s) && 0 < k <= |s.requests|
    ensures Registered(s)
    ensures s.requests[k - 1] !in s.requests[..k - 1]
    ensures s.requests[k - 1] in s.requests && s.requests[k - 1] in s.reqs
    ensures forall id :: id in s.requests[..k] <==> id in s.requests[..k - 1] || id == s.requests[k - 1]
  {
    assert s.requests[..k] == s.requests[..k - 1] + [s.requests[k - 1]];
  }

  lemma RetargetNext(s: Pool, p: Pool, target: int, k: nat, id: nat)
    requires Registered(s) && 0 < k <= |s.requests| && RetargetedTo(s, p, target, k - 1)
    requires id in s.reqs && id !in s.requests[..k - 1]
    requires forall x :: x in s.requests[..k] <==> x in s.requests[..k - 1] || x == id
    ensures RetargetedTo(s, Reaccount(p, id, WithTarget(p.reqs[id], target)), target, k)
  {
    hide Registered;
    var r := WithTarget(p.reqs[id], target);
    var q := Reaccount(p, id, r);
    assert q.reqs == p.reqs[id := r];
  }

  lemma RetargetStart(s: Pool, target: int)
    requires Registered(s)
    ensures RetargetedTo(s, RetargetTo(s, target, 0), target, 0)
  {
  }

  lemma {:induction false} RetargetReaches(s: Pool, target: int, k: nat)
    requires Core(s) && k <= |s.requests|
    ensures RetargetedTo(s, RetargetTo(s, target, k), target, k)
  {
    hide Distinct, RequestsOk, Recount, Balanced, FreeList, Generations, Ownership, Reaccount, RetargetedTo, Blank;
    if k == 0 {
      RetargetStart(s, target);
    } else {
      RetargetReaches(s, target, k - 1);
      NextToRetarget(s, k);
      hide Core;
      RetargetNext(s, RetargetTo(s, target, k - 1), target, k, s.requests[k - 1]);
    }
  }

  /** The request that comes next still has its old target and debt. */
  lemma RetargetFindsOld(s: Pool, target: int, k: nat)
    requires Core(s) && 0 < k <= |s.requests|
    ensures Registered(s)
    ensures var id := s.requests[k - 1]; var r := s.reqs[id];
      RetargetTo(s, target, k - 1).reqs[id] == r && r.debt == Max0(r.owned - r.target)
  {
    hide Distinct, Recount, Balanced, FreeList, Generations, Ownership, RetargetTo;
    NextToRetarget(s, k);
    RetargetReaches(s, target, k - 1);
    assert RequestOk(s.requests[k - 1], s.reqs[s.requests[k - 1]]);
  }

  lemma {:induction false} RetargetKeepsCore(s: Pool, target: int, k: nat)
    requires Core(s) && k <= |s.requests|
    requires 0 <= target <= REQUEST_CAP && Aligned(target)
    ensures Core(RetargetTo(s, target, k))
  {
    hide Distinct, RequestsOk, Recount, Balanced, FreeList, Generations, Ownership, Reaccount;
    if k > 0 {
      RetargetKeepsCore(s, target, k - 1);
      RetargetOneKeepsCore(RetargetTo(s, target, k - 1), s.requests[k - 1], target);
    }
  }

  lemma RaisedTargetShrinksDebt(p: Pool, id: nat, target: int)
    requires id in p.reqs && p.reqs[id].target <= target
    requires p.reqs[id].debt == Max0(p.reqs[id].owned - p.reqs[id].target)
    ensures Reaccount(p, id, WithTarget(p.reqs[id], target)).debtBytes <= p.debtBytes
  {
  }

  /** Raising every target lowers no account: the total debt can only shrink. */
  lemma {:induction false} RaisedTargetsShrinkDebt(s: Pool, target: int, k: nat)
    requires Core(s) && k <= |s.requests|
    requires forall id :: id in s.requests ==> s.reqs[id].target <= target
    ensures RetargetTo(s, target, k).debtBytes <= s.debtBytes
  {
    hide Distinct, RequestsOk, Recount, Balanced, FreeList, Generations, Ownership, Reaccount, Blank;
    if k > 0 {
      RaisedTargetsShrinkDebt(s, target, k - 1);
      hide Core, WithTarget;
      RetargetFindsOld(s, target, k);
      RaisedTargetShrinksDebt(RetargetTo(s, target, k - 1), s.requests[k - 1], target);
    }
  }

  lemma RecomputeReaches(s: Pool)
    requires Core(s)
    ensures var p := RecomputeTargets(s);
      && Core(p) && SameRegistry(s, p) && p.nextGrant == s.nextGrant && p.waiters == s.waiters
      && (forall id :: id in s.requests ==> p.reqs[id] == WithTarget(s.reqs[id], TargetFor(s.hardBudget, |s.requests|)))
      && (forall id :: id in s.reqs && id !in s.requests ==> p.reqs[id] == s.reqs[id])
  {
    hide Distinct, RequestsOk, Recount, Balanced, FreeList, Generations, Ownership, RetargetTo, TargetFor;
    if |s.requests| > 0 {
      var t := TargetFor(s.hardBudget, |s.requests|);
      RetargetReaches(s, t, |s.requests|);
      AlignedTarget(s.hardBudget, |s.requests|);
      RetargetKeepsCore(s, t, |s.requests|);
      assert s.requests[..|s.requests|] == s.requests;
    }
  }

  lemma RecomputeKeeps(s: Pool)
    requires Core(s) && WaitersAre(s, s.waiters) && Open(s)
    ensures var p := RecomputeTargets(s);
      && Inv(p) && SameRegistry(s, p) && p.nextGrant == s.nextGrant
      && (forall id :: id in s.reqs ==> ViewOf(p.reqs[id]) == ViewOf(s.reqs[id]))
  {
    hide RequestsOk, Recount, Balanced, FreeList, Generations, Ownership, RecomputeTargets, TargetFor;
    RecomputeReaches(s);
    SameRequestsKeepWaiters(s, RecomputeTargets(s));
  }

  lemma SameRequestsKeepWaiters(s: Pool, p: Pool)
    requires WaitersAre(s, s.waiters) && p.reqs.Keys == s.reqs.Keys
    requires forall id :: id in s.reqs ==> p.reqs[id].waiting == s.reqs[id].waiting
    ensures WaitersAre(p, s.waiters)
  {
  }

  /** The pool with a new request in its registry, before targets are recomputed. */
  function Enrolled(s: Pool): Pool {
    var id := s.nextRequestID + 1;
    AddCounters(SetRequest(s.(nextRequestID := id, requests := s.requests + [id]), id, NEW_REQUEST), NEW_REQUEST)
  }

  lemma EnrollKeepsRoster(requests: seq<nat>, reqs: map<nat, Request>, n: nat)
    requires Roster(requests, reqs, n) && RequestsOk(reqs)
    ensures Roster(requests + [n + 1], reqs[n + 1 := NEW_REQUEST], n + 1) && RequestsOk(reqs[n + 1 := NEW_REQUEST])
    ensures Recount(requests + [n + 1], reqs[n + 1 := NEW_REQUEST]) == Plus(Recount(requests, reqs), Share(NEW_REQUEST))
  {
    hide RequestOk;
    assert (requests + [n + 1])[..|requests|] == requests;
    assert n + 1 !in requests;
    RecountFrame(requests, reqs, reqs[n + 1 := NEW_REQUEST]);
    assert RequestOk(n + 1, NEW_REQUEST) by { NewRequestOk(n + 1); }
  }

  lemma NewRequestOk(id: nat)
    ensures RequestOk(id, NEW_REQUEST)
  {
  }

  lemma EnrollKeepsCore(s: Pool)
    requires Inv(s)
    ensures var q := Enrolled(s);
      && Core(q) && WaitersAre(q, q.waiters) && Open(q)
  {
    hide Recount, RequestsOk, Balanced, FreeList, Generations, Ownership;
    EnrollKeepsRoster(s.requests, s.reqs, s.nextRequestID);
    NewRequestOwnsNothing(s.reqs, s.chunks, s.nextRequestID + 1);
  }

  lemma NewRequestOwnsNothing(reqs: map<nat, Request>, chunks: map<nat, Chunk>, id: nat)
    requires Ownership(reqs, chunks) && id !in reqs
    ensures Ownership(reqs[id := NEW_REQUEST], chunks)
  {
    var reqs' := reqs[id := NEW_REQUEST];
    forall x, c, g | x in reqs' && Holds(reqs'[x], c, g)
      ensures c in chunks && chunks[c] == Chunk(g, x)
    {
      assert Holds(reqs[x], c, g);
    }
    forall c | c in chunks && chunks[c].ownerID != 0
      ensures chunks[c].ownerID in reqs' && Holds(reqs'[chunks[c].ownerID], c, chunks[c].generation)
    {
      assert Holds(reqs[chunks[c].ownerID], c, chunks[c].generation);
    }
  }

  /** New targets, then a scheduling pass: how registering and closing both end. */
  lemma RebalanceSettles(q: Pool)
    requires Core(q) && WaitersAre(q, q.waiters) && Open(q)
    ensures Registered(q) && WaitersKnown(q)
    ensures var p := Schedule(RecomputeTargets(q));
      && Steady(p) && SameRegistry(q, p) && ViewsAdvance(q, p) && p.debtBytes == RecomputeTargets(q).debtBytes
  {
    hide Core, WaitersAre, Targets, Open, WorkConserving, RecomputeTargets, Schedule, ViewOther;
    KnownPool(q);
    RecomputeKeeps(q);
    ScheduleSettles(RecomputeTargets(q));
  }

  lemma KnownPool(s: Pool)
    requires Core(s) && WaitersAre(s, s.waiters)
    ensures Registered(s) && WaitersKnown(s)
  {
  }

  lemma ViewsOfEnrolled(s: Pool, q: Pool, p: Pool, id: nat)
    requires id !in s.reqs && q.reqs == s.reqs[id := NEW_REQUEST] && q.nextGrant == s.nextGrant
    requires ViewsAdvance(q, p)
    ensures ViewsAdvance(s, p) && id in p.reqs && ViewOf(p.reqs[id]) == ViewOf(NEW_REQUEST)
  {
  }

  lemma EnrolledIs(s: Pool)
    requires Inv(s)
    ensures Registered(s) && WaitersKnown(s)
    ensures var q := Enrolled(s);
      && s.nextRequestID + 1 !in s.reqs
      && q.reqs == s.reqs[s.nextRequestID + 1 := NEW_REQUEST] && q.nextGrant == s.nextGrant
      && q.nextRequestID == s.nextRequestID + 1 && q.requests == s.requests + [q.nextRequestID]
      && Registered(q) && WaitersKnown(q)
      && Register(s) == Schedule(RecomputeTargets(q))
  {
    hide RequestsOk, Recount, Balanced, FreeList, Generations, Ownership, RecomputeTargets, Schedule, WorkConserving,
        Targets, Open;
  }

  lemma RegisterSettles(s: Pool)
    requires Steady(s)
    ensures Registered(s) && WaitersKnown(s)
    ensures var p := Register(s);
      && Steady(p) && ViewsAdvance(s, p)
      && p.nextRequestID == s.nextRequestID + 1 && p.requests == s.requests + [p.nextRequestID]
      && s.nextRequestID + 1 !in s.reqs && p.nextRequestID in p.reqs
      && ViewOf(p.reqs[p.nextRequestID]) == ViewOf(NEW_REQUEST)
  {
    hide Sound, Open, WorkConserving, RecomputeTargets, Schedule, Enrolled, Register, ViewsAdvance;
    EnrolledIs(s);
    EnrollKeepsCore(s);
    RebalanceSettles(Enrolled(s));
    ViewsOfEnrolled(s, Enrolled(s), Register(s), s.nextRequestID + 1);
  }
}

/**
 Closing a request: it gives back everything it holds, leaves the registry, and the others may grow.
 */
module MediaBufferClose {
  import opened Wrappers
  import opened MediaBufferModel
  import opened MediaBufferInvariant
  import opened MediaBufferSchedule
  import opened MediaBufferOperations

  /** `p` differs from `s` in request `id` only, whose bytes may have shrunk. */
  ghost predicate OnlyRequest(s: Pool, p: Pool, id: nat)
    requires id in s.reqs
  {
    && SameRegistry(s, p) && p.nextGrant == s.nextGrant && p.debtBytes <= s.debtBytes
    && (forall x :: x in s.reqs && x != id ==> p.reqs[x] == s.reqs[x])
  }

  function SetOf(ids: seq<nat>): set<nat> {
    set x | x in ids
  }

  lemma ReleaseOne(s: Pool, id: nat, c: nat)
    requires Sound(s) && id in s.requests && id in s.reqs && c in s.reqs[id].accepted
    ensures c in s.chunks
    ensures var p := ReleaseAccepted(s, id, c);
      && Sound(p) && OnlyRequest(s, p, id)
      && ViewOf(p.reqs[id]) == ViewOf(s.reqs[id]).(accepted := s.reqs[id].accepted - {c})
  {
    hide Sound;
    ReleaseKeepsSound(s, id, c);
  }

  lemma {:induction false} ReleaseAllKeeps(s: Pool, id: nat, order: seq<nat>)
    requires Sound(s) && id in s.requests && id in s.reqs && Distinct(order)
    requires forall c :: c in order ==> c in s.reqs[id].accepted && c in s.chunks
    ensures var p := ReleaseAll(s, id, order);
      && Sound(p) && OnlyRequest(s, p, id)
      && ViewOf(p.reqs[id]) == ViewOf(s.reqs[id]).(accepted := s.reqs[id].accepted - SetOf(order))
  {
    hide Sound, ReleaseAccepted;
    if |order| == 0 {
      assert s.reqs[id].accepted - SetOf(order) == s.reqs[id].accepted;
    } else {
      var init, c := order[..|order| - 1], order[|order| - 1];
      ReleaseAllKeeps(s, id, init);
      var p := ReleaseAll(s, id, init);
      assert c !in init;
      assert SetOf(order) == SetOf(init) + {c};
      ReleaseOne(p, id, c);
      assert s.reqs[id].accepted - SetOf(init) - {c} == s.reqs[id].accepted - SetOf(order);
    }
  }

  lemma FlagIsOk(id: nat, r: Request)
    requires RequestOk(id, r)
    ensures var q := r.(closed := true);
      RequestOk(id, q) && Share(q) == Share(r) && forall c, g :: Holds(q, c, g) <==> Holds(r, c, g)
  {
  }

  lemma CloseFlagKeepsSound(s: Pool, id: nat)
    requires Sound(s) && id in s.requests && id in s.reqs
    ensures var p := SetRequest(s, id, s.reqs[id].(closed := true));
      Sound(p) && OnlyRequest(s, p, id)
  {
    var r := s.reqs[id].(closed := true);
    KnownRequest(s, id);
    FlagIsOk(id, s.reqs[id]);
    hide Recount, FreeList, Generations, Ownership, Balanced, RequestOk, Share, Holds;
    TouchKeepsCore(s, id, r);
    hide Core, Distinct;
    SameRequestsKeepWaiters(s, SetRequest(s, id, r));
  }

  lemma UnlistKeepsSound(s: Pool, id: nat)
    requires Sound(s) && id in s.requests && id in s.reqs
    ensures var p := Unlist(s, id);
      && Sound(p) && OnlyRequest(s, p, id) && ViewOf(p.reqs[id]) == ViewOf(s.reqs[id]).(waiting := false)
  {
    hide Sound;
    if s.reqs[id].waiting {
      LeaveKeepsSound(s, id);
    }
  }

  lemma UnpendKeepsSound(s: Pool, id: nat)
    requires Sound(s) && id in s.requests && id in s.reqs
    ensures PendingKnown(s, id)
    ensures var p := Unpend(s, id);
      && Sound(p) && OnlyRequest(s, p, id)
      && ViewOf(p.reqs[id]) == ViewOf(s.reqs[id]).(pending := None, notify := false)
  {
    hide Sound;
    KnownRequest(s, id);
    var r := s.reqs[id];
    if r.pending.Some? {
      ReclaimKeepsSound(s, id);
    } else {
      assert r.(notify := false) == r;
      assert s.reqs[id := r] == s.reqs;
    }
  }

  lemma OnlyRequestTransitive(s: Pool, p: Pool, q: Pool, id: nat)
    requires id in s.reqs && OnlyRequest(s, p, id) && id in p.reqs && OnlyRequest(p, q, id)
    ensures OnlyRequest(s, q, id)
  {
  }

  lemma OrderKnown(s: Pool, id: nat, order: seq<nat>)
    requires Sound(s) && id in s.reqs && forall c :: c in order ==> c in s.reqs[id].accepted
    ensures forall c :: c in order ==> c in s.chunks
  {
    forall c | c in order
      ensures c in s.chunks
    {
      assert Holds(s.reqs[id], c, s.reqs[id].accepted[c]);
    }
  }

  /** A request that has vacated is closed and holds nothing. */
  lemma VacateKeeps(s: Pool, id: nat, order: seq<nat>)
    requires Sound(s) && id in s.requests && id in s.reqs && ValidOrder(s, id, order)
    ensures PendingKnown(s, id) && forall c :: c in order ==> c in s.chunks
    ensures var p := Vacate(s, id, order);
      && Sound(p) && OnlyRequest(s, p, id)
      && ViewOf(p.reqs[id]) == View(false, true, false, None, map[])
  {
    hide Sound, Unlist, Unpend, ReleaseAll, Distinct, OnlyRequest;
    KnownRequest(s, id);
    OrderKnown(s, id, order);
    var p := SetRequest(s, id, s.reqs[id].(closed := true));
    CloseFlagKeepsSound(s, id);
    UnlistKeepsSound(p, id);
    var q := Unlist(p, id);
    OnlyRequestTransitive(s, p, q, id);
    UnpendKeepsSound(q, id);
    var t := Unpend(q, id);
    OnlyRequestTransitive(s, q, t, id);
    ReleaseAllKeeps(t, id, order);
    OnlyRequestTransitive(s, t, ReleaseAll(t, id, order), id);
    assert s.reqs[id].accepted - SetOf(order) == map[];
  }

  // ---- leaving the registry -------------------------------------------------------------------

  /** Everything is as the invariant wants it but for the one closed, empty request `id`. */
  ghost predicate Vacated(s: Pool, id: nat) {
    && Sound(s) && id in s.reqs && id in s.requests
    && ViewOf(s.reqs[id]) == View(false, true, false, None, map[])
    && (forall x :: x in s.requests && x != id ==> !s.reqs[x].closed)
  }

  lemma VacatedIsBlank(s: Pool, id: nat)
    requires Vacated(s, id)
    ensures Blank(s.reqs[id]) && Share(s.reqs[id]) == Tally(0, 0, 1, 0)
    ensures WithoutRequest(s, id).debtBytes == s.debtBytes
    ensures forall x :: x in WithoutFirst(s.requests, id) <==> x in s.requests && x != id
    ensures |WithoutFirst(s.requests, id)| == |s.requests| - 1 && Distinct(WithoutFirst(s.requests, id))
  {
    hide Recount, Balanced, FreeList, Generations, Ownership;
    KnownRequest(s, id);
    WithoutFirstFacts(s.requests, id);
  }

  lemma DepartKeepsCore(s: Pool, id: nat)
    requires Vacated(s, id)
    ensures var p := WithoutRequest(s, id);
      Core(p) && WaitersAre(p, p.waiters) && Open(p)
  {
    hide Recount, Balanced, FreeList, Generations, Ownership, RequestOk, Distinct, WithoutFirst, Share;
    VacatedIsBlank(s, id);
    RecountWithout(s.requests, s.reqs, id);
  }

  /** With one request fewer, the equal share does not shrink. */
  lemma ShareGrows(hardBudget: int, n: nat)
    requires hardBudget >= 0 && n > 0
    ensures TargetFor(hardBudget, n + 1) <= TargetFor(hardBudget, n)
  {
    DivisionGrows(hardBudget, n);
  }

  lemma MulMonotone(a: int, c: int, n: nat)
    ensures a <= c ==> a * n <= c * n
  {
  }

  lemma DivisionGrows(b: int, n: nat)
    requires b >= 0 && n > 0
    ensures 0 <= b / (n + 1) <= b / n
  {
    var q, d := b / (n + 1), b / n;
    assert q * n <= q * n + q == q * (n + 1) <= b;
    assert b < d * n + n == (d + 1) * n;
    MulMonotone(d + 1, q, n);
  }

  lemma DepartShrinksDebt(s: Pool, id: nat)
    requires Vacated(s, id)
    ensures Core(WithoutRequest(s, id)) && RecomputeTargets(WithoutRequest(s, id)).debtBytes <= s.debtBytes
  {
    DepartKeepsCore(s, id);
    VacatedIsBlank(s, id);
    var p := WithoutRequest(s, id);
    var n := |p.requests|;
    if n > 0 {
      DepartedTargets(s, id);
      hide Core, TargetFor, Sound;
      RaisedTargetsShrinkDebt(p, TargetFor(p.hardBudget, n), n);
    }
  }

  lemma DepartedTargets(s: Pool, id: nat)
    requires Vacated(s, id) && |s.requests| > 1
    ensures var p := WithoutRequest(s, id);
      forall x :: x in p.requests ==> x in p.reqs && p.reqs[x].target <= TargetFor(p.hardBudget, |s.requests| - 1)
  {
    hide RequestsOk, Recount, FreeList, Generations, Ownership, TargetFor, Distinct, WithoutFirst;
    VacatedIsBlank(s, id);
    ShareGrows(s.hardBudget, |s.requests| - 1);
  }

  /** After the departure, targets and grants settle the rest of the pool. */
  lemma DepartSettles(s: Pool, id: nat)
    requires Vacated(s, id)
    ensures var q := WithoutRequest(s, id);
      && Registered(q) && WaitersKnown(q)
      && var p := Schedule(RecomputeTargets(q));
      && Steady(p) && p.debtBytes <= s.debtBytes && ViewsAdvance(s, p) && p.requests == q.requests
  {
    hide Core, WaitersAre, Targets, Open, Sound, WorkConserving, RecomputeTargets, Schedule, ViewsAdvance;
    DepartKeepsCore(s, id);
    DepartShrinksDebt(s, id);
    RebalanceSettles(WithoutRequest(s, id));
    ViewsOfSame(s, WithoutRequest(s, id), Schedule(RecomputeTargets(WithoutRequest(s, id))));
  }

  lemma ViewsOfSame(s: Pool, q: Pool, p: Pool)
    requires q.reqs == s.reqs && q.nextGrant == s.nextGrant && ViewsAdvance(q, p)
    ensures ViewsAdvance(s, p)
  {
  }

  lemma OpenRegistry(s: Pool)
    requires Inv(s)
    ensures Registered(s) && WaitersKnown(s)
    ensures forall x :: x in s.requests ==> x in s.reqs && !s.reqs[x].closed
  {
  }

  lemma VacatedByClose(s: Pool, id: nat, order: seq<nat>)
    requires Inv(s) && id in s.requests && id in s.reqs && ValidOrder(s, id, order)
    ensures PendingKnown(s, id) && forall c :: c in order ==> c in s.chunks
    ensures var q := Vacate(s, id, order);
      Vacated(q, id) && OnlyRequest(s, q, id)
  {
    OpenRegistry(s);
    hide Sound, Vacate, ValidOrder;
    VacateKeeps(s, id, order);
  }

  lemma FirstIsMember(ids: seq<nat>)
    ensures |ids| > 0 ==> ids[0] in ids
  {
  }

  lemma CloseOfClosed(s: Pool, id: nat, order: seq<nat>)
    requires Inv(s) && id in s.reqs && ValidOrder(s, id, order) && s.reqs[id].closed
    ensures order == [] && ViewOf(s.reqs[id]) == View(false, true, false, None, map[])
  {
    hide Sound;
    ClosedIsUnregistered(s, id);
    FirstIsMember(order);
  }

  lemma ThroughVacate(s: Pool, v: Pool, p: Pool, id: nat)
    requires id in s.reqs && OnlyRequest(s, v, id) && ViewsAdvance(v, p)
    requires id in v.reqs && ViewOf(v.reqs[id]) == View(false, true, false, None, map[])
    ensures ViewsExcept(s, p, id) && ViewOf(p.reqs[id]) == View(false, true, false, None, map[])
  {
  }

  lemma VacatedView(s: Pool, id: nat)
    requires Vacated(s, id)
    ensures id in s.reqs && ViewOf(s.reqs[id]) == View(false, true, false, None, map[])
  {
  }

  lemma CloseSettles(s: Pool, id: nat, order: seq<nat>)
    requires Steady(s) && id in s.reqs && ValidOrder(s, id, order)
    ensures Registered(s) && WaitersKnown(s) && PendingKnown(s, id) && forall c :: c in order ==> c in s.chunks
    ensures var p := Close(s, id, order);
      && Steady(p) && p.debtBytes <= s.debtBytes && ViewsExcept(s, p, id)
      && ViewOf(p.reqs[id]) == View(false, true, false, None, map[])
      && (s.reqs[id].closed ==> p == s)
  {
    hide Sound, Open, Vacate, WithoutRequest, Vacated, WorkConserving, RecomputeTargets, Schedule, ValidOrder;
    OpenRegistry(s);
    if s.reqs[id].closed {
      CloseOfClosed(s, id, order);
      ClosedIsUnregistered(s, id);
    } else {
      ClosedIsUnregistered(s, id);
      VacatedByClose(s, id, order);
      var v := Vacate(s, id, order);
      DepartSettles(v, id);
      VacatedView(v, id);
      ThroughVacate(s, v, Close(s, id, order), id);
    }
  }
}

/**
 The scheduling pass: it filters the waiter list in place, granting one chunk to each waiter that may
 have one. The pass keeps the invariant, keeps the order of those that stay, leaves nobody grantable,
 and never passes over a waiter for lack of pool space to serve a later one.
 */
module MediaBufferSchedule {
  import opened Wrappers
  import opened MediaBufferModel
  import opened MediaBufferInvariant

  /** Those of `ids` that are still waiting, in their order. */
  function StillWaiting(ids: seq<nat>, reqs: map<nat, Request>): seq<nat>
    requires forall id :: id in ids ==> id in reqs
  {
    if |ids| == 0 then []
    else
      var last := ids[|ids| - 1];
      StillWaiting(ids[..|ids| - 1], reqs) + (if reqs[last].waiting then [last] else [])
  }

  lemma {:induction false} StillWaitingFrame(ids: seq<nat>, a: map<nat, Request>, b: map<nat, Request>)
    requires forall id :: id in ids ==> id in a && id in b && a[id].waiting == b[id].waiting
    ensures StillWaiting(ids, a) == StillWaiting(ids, b)
  {
    if |ids| > 0 {
      StillWaitingFrame(ids[..|ids| - 1], a, b);
    }
  }

  lemma {:induction false} StillWaitingFacts(ids: seq<nat>, reqs: map<nat, Request>)
    requires forall id :: id in ids ==> id in reqs
    requires Distinct(ids)
    ensures forall id :: id in StillWaiting(ids, reqs) <==> id in ids && reqs[id].waiting
    ensures Distinct(StillWaiting(ids, reqs))
  {
    if |ids| > 0 {
      var n := |ids| - 1;
      StillWaitingFacts(ids[..n], reqs);
      assert ids == ids[..n] + [ids[n]];
      assert ids[n] !in ids[..n];
    }
  }

  /** `r` became `r'` by a grant whose generation lies in `(lo, hi]`. */
  ghost predicate WasGranted(id: nat, r: Request, r': Request, lo: nat, hi: nat) {
    && r.waiting && r.pending.None? && r'.pending.Some?
    && lo < r'.pending.value.generation <= hi
    && r'.pending.value.chunk !in r.accepted
    && r' == GrantedTo(r, id, r'.pending.value.chunk, r'.pending.value.generation)
    && r'.debt == 0
  }

  /** A waiter that only lacks pool space. */
  predicate LacksSpaceOnly(r: Request) {
    !r.closed && r.waiting && r.pending.None? && r.debt == 0 && r.owned + CHUNK <= r.target
  }

  /** Requests between `s` and `p` either did not change or were granted one chunk. */
  ghost predicate OnlyGrants(s: Pool, p: Pool) {
    && p.reqs.Keys == s.reqs.Keys
    && s.nextGrant <= p.nextGrant
    && (forall id :: id in s.reqs ==>
      p.reqs[id] == s.reqs[id] || WasGranted(id, s.reqs[id], p.reqs[id], s.nextGrant, p.nextGrant))
  }

  ghost predicate SameRegistry(s: Pool, p: Pool) {
    && p.hardBudget == s.hardBudget && p.requests == s.requests && p.nextRequestID == s.nextRequestID
    && p.reqs.Keys == s.reqs.Keys
  }

  /** No waiter of `ws` that only lacks space stands before one that was granted a chunk. */
  ghost predicate NobodyOvertaken(ws: seq<nat>, reqs: map<nat, Request>) {
    && (forall id :: id in ws ==> id in reqs)
    && (forall i, j :: 0 <= i < j < |ws| && LacksSpaceOnly(reqs[ws[i]]) ==> reqs[ws[j]].waiting)
  }

  /** The state of a pass over `s.waiters` after its first `k` entries. */
  ghost predicate PassAt(s: Pool, p: Pool, k: nat)
    requires WaitersKnown(s) && k <= |s.waiters|
  {
    && Core(p) && SameRegistry(s, p) && OnlyGrants(s, p)
    && p.debtBytes == s.debtBytes
    && p.waiters == StillWaiting(s.waiters[..k], p.reqs)
    && (forall i :: k <= i < |s.waiters| ==> p.reqs[s.waiters[i]] == s.reqs[s.waiters[i]])
    && WaitersKnown(p) && WorkConserving(p)
    && NobodyOvertaken(s.waiters[..k], p.reqs)
  }

  lemma WaitersAreRegistered(s: Pool)
    requires Core(s) && WaitersAre(s, s.waiters)
    ensures forall id :: id in s.waiters ==> id in s.requests
  {
  }

  lemma PassStart(s: Pool)
    requires Core(s) && WaitersAre(s, s.waiters)
    ensures PassAt(s, ScheduleTo(s, 0), 0)
  {
  }

  lemma WaitersCover(s: Pool, k: nat)
    requires WaitersAre(s, s.waiters) && k < |s.waiters|
    ensures s.waiters[..k + 1] == s.waiters[..k] + [s.waiters[k]]
    ensures Distinct(s.waiters[..k]) && Distinct(s.waiters[..k + 1]) && s.waiters[k] !in s.waiters[..k]
    ensures forall id :: id in s.waiters[..k + 1] ==> id in s.reqs
    ensures forall i :: k < i < |s.waiters| ==> s.waiters[i] != s.waiters[k]
  {
  }

  /** A skipped waiter goes to the end of those that stay. */
  lemma PassSkips(s: Pool, p: Pool, k: nat)
    requires Core(s) && WaitersAre(s, s.waiters) && k < |s.waiters|
    requires PassAt(s, p, k) && !CanGrant(p, s.waiters[k])
    ensures PassAt(s, ScheduleOne(p, s.waiters[k]), k + 1)
  {
    hide Core, OnlyGrants, Distinct;
    var id := s.waiters[k];
    WaitersCover(s, k);
    assert p.reqs[id] == s.reqs[id] && s.reqs[id].waiting;
    var q := ScheduleOne(p, id);
    assert q == p.(waiters := p.waiters + [id]);
    assert Core(q) by { CoreIgnoresWaiters(p, q.waiters); }
    assert OnlyGrants(s, q) by { OnlyGrantsIgnoresWaiters(s, p, q.waiters); }
    assert WorkConserving(q) by {
      forall x | x in q.waiters ensures !CanGrant(q, x) {
        assert CanGrant(q, x) == CanGrant(p, x);
      }
    }
  }

  lemma CoreIgnoresWaiters(s: Pool, ws: seq<nat>)
    requires Core(s)
    ensures Core(s.(waiters := ws))
  {
    hide Recount, FreeList, Generations, Ownership, Balanced, Roster;
  }

  lemma OnlyGrantsIgnoresWaiters(s: Pool, p: Pool, ws: seq<nat>)
    requires OnlyGrants(s, p)
    ensures OnlyGrants(s, p.(waiters := ws))
  {
  }

  lemma OnlyGrantsExtends(s: Pool, p: Pool, id: nat)
    requires Core(p) && OnlyGrants(s, p) && id in s.reqs && p.reqs[id] == s.reqs[id] && CanGrant(p, id)
    ensures OnlyGrants(s, AfterGrant(p, id))
  {
    hide Recount, Balanced, FreeList, Generations, Ownership, Distinct;
    NextChunkIsFree(p.free, p.chunks, p.reqs, p.nextChunkID, p.nextGrant, NextChunk(p));
  }

  /** A grant takes pool space and touches one request, so nobody skipped before becomes grantable. */
  lemma GrantKeepsOthersBlocked(p: Pool, id: nat)
    requires id in p.reqs && WaitersKnown(p) && WorkConserving(p) && id !in p.waiters && CanGrant(p, id)
    ensures WorkConserving(AfterGrant(p, id))
  {
    var q := AfterGrant(p, id);
    assert q.waiters == p.waiters;
    forall x | x in q.waiters
      ensures !CanGrant(q, x)
    {
      assert q.reqs[x] == p.reqs[x] && !CanGrant(p, x);
      assert PoolSpace(q) ==> PoolSpace(p);
    }
  }

  lemma GrantOvertakesNobody(p: Pool, ws: seq<nat>, id: nat, k: nat)
    requires id in p.reqs && WaitersKnown(p) && CanGrant(p, id) && WorkConserving(p)
    requires k < |ws| && ws[k] == id && id !in ws[..k]
    requires forall x :: x in ws[..k] ==> x in p.reqs
    requires p.waiters == StillWaiting(ws[..k], p.reqs) && Distinct(ws[..k])
    requires NobodyOvertaken(ws[..k], p.reqs)
    ensures NobodyOvertaken(ws[..k + 1], AfterGrant(p, id).reqs)
  {
    hide Distinct;
    var q := AfterGrant(p, id);
    assert ws[..k + 1] == ws[..k] + [id];
    StillWaitingFacts(ws[..k], p.reqs);
    forall i | 0 <= i < k
      ensures !LacksSpaceOnly(p.reqs[ws[i]])
    {
      assert ws[i] in ws[..k];
      assert p.reqs[ws[i]].waiting ==> ws[i] in p.waiters;
    }
  }

  lemma PassGrants(s: Pool, p: Pool, k: nat)
    requires Core(s) && WaitersAre(s, s.waiters) && k < |s.waiters|
    requires PassAt(s, p, k) && CanGrant(p, s.waiters[k])
    ensures PassAt(s, ScheduleOne(p, s.waiters[k]), k + 1)
  {
    hide Core, OnlyGrants, NobodyOvertaken, CanGrant, ScheduleOne, WorkConserving, Distinct;
    var id := s.waiters[k];
    var q := AfterGrant(p, id);
    WaitersAreRegistered(s);
    ScheduleOneGrants(p, id);
    GrantKeepsCore(p, id);
    WaitersCover(s, k);
    OnlyGrantsExtends(s, p, id);
    GrantOvertakesNobody(p, s.waiters, id, k);
    StillWaitingFrame(s.waiters[..k], p.reqs, q.reqs);
    StillWaitingFacts(s.waiters[..k], p.reqs);
    GrantKeepsOthersBlocked(p, id);
    assert q.waiters == StillWaiting(s.waiters[..k + 1], q.reqs);
  }

  lemma {:induction false} SchedulePass(s: Pool, k: nat)
    requires Core(s) && WaitersAre(s, s.waiters) && k <= |s.waiters|
    ensures PassAt(s, ScheduleTo(s, k), k)
  {
    hide PassAt, Core, CanGrant, ScheduleOne;
    if k == 0 {
      PassStart(s);
    } else {
      SchedulePass(s, k - 1);
      var p := ScheduleTo(s, k - 1);
      if CanGrant(p, s.waiters[k - 1]) {
        PassGrants(s, p, k - 1);
      } else {
        PassSkips(s, p, k - 1);
      }
    }
  }

  /** The whole pass: what it leaves waiting, in what order, and what it never does. */
  lemma ScheduleIsFairAndWorkConserving(s: Pool)
    requires Core(s) && WaitersAre(s, s.waiters)
    ensures var p := Schedule(s);
      && p.waiters == StillWaiting(s.waiters, p.reqs)
      && WaitersKnown(p) && WorkConserving(p)
      && OnlyGrants(s, p)
      && NobodyOvertaken(s.waiters, p.reqs)
  {
    hide Core, OnlyGrants, NobodyOvertaken, CanGrant, WorkConserving, Distinct;
    SchedulePass(s, |s.waiters|);
    assert s.waiters[..|s.waiters|] == s.waiters;
  }

  lemma ScheduleKeeps(s: Pool)
    requires Core(s) && WaitersAre(s, s.waiters)
    ensures var p := Schedule(s);
      && Core(p) && WaitersAre(p, p.waiters) && SameRegistry(s, p) && p.debtBytes == s.debtBytes
  {
    hide Core, NobodyOvertaken, CanGrant, WorkConserving, Distinct;
    SchedulePass(s, |s.waiters|);
    var p := Schedule(s);
    assert s.waiters[..|s.waiters|] == s.waiters;
    StillWaitingFacts(s.waiters, p.reqs);
    forall id | id in p.reqs
      ensures p.reqs[id].waiting <==> id in p.waiters
    {
      assert s.reqs[id].waiting <==> id in s.waiters;
    }
  }
}

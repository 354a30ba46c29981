/**
 What every critical section of the allocator keeps: byte accounting, chunk placement, the request
 registry and the waiter list. The helpers keep `Core`; the public operations keep `Inv`.

 Bytes are allocated, owned or free, and the four counters are those of a recount of the registered
 requests. A chunk is free or held by one request under its current generation, and no generation is
 given twice. Exactly the waiting requests are listed, each once, and all targets are the equal share.
 */
module MediaBufferInvariant {
  import opened Wrappers
  import opened MediaBufferModel

  // ---- a recount of the registered requests ---------------------------------------------------

  datatype Tally = Tally(owned: int, debt: int, baseOnly: int, indebted: int)

  function Share(r: Request): Tally {
    Tally(r.owned, Max0(r.debt), if r.owned == 0 then 1 else 0, if r.debt > 0 then 1 else 0)
  }

  function Plus(a: Tally, b: Tally): Tally {
    Tally(a.owned + b.owned, a.debt + b.debt, a.baseOnly + b.baseOnly, a.indebted + b.indebted)
  }

  function Minus(a: Tally, b: Tally): Tally {
    Tally(a.owned - b.owned, a.debt - b.debt, a.baseOnly - b.baseOnly, a.indebted - b.indebted)
  }

  /** The totals a full recount over `ids` finds. */
  function Recount(ids: seq<nat>, reqs: map<nat, Request>): Tally
    requires forall id :: id in ids ==> id in reqs
  {
    if |ids| == 0 then Tally(0, 0, 0, 0)
    else Plus(Recount(ids[..|ids| - 1], reqs), Share(reqs[ids[|ids| - 1]]))
  }

  lemma {:induction false} RecountFrame(ids: seq<nat>, a: map<nat, Request>, b: map<nat, Request>)
    requires forall id :: id in ids ==> id in a && id in b && Share(a[id]) == Share(b[id])
    ensures Recount(ids, a) == Recount(ids, b)
  {
    if |ids| > 0 {
      RecountFrame(ids[..|ids| - 1], a, b);
    }
  }

  lemma {:induction false} RecountUpdate(ids: seq<nat>, reqs: map<nat, Request>, id: nat, r: Request)
    requires forall x :: x in ids ==> x in reqs
    requires Distinct(ids) && id in ids
    ensures Recount(ids, reqs[id := r]) == Plus(Minus(Recount(ids, reqs), Share(reqs[id])), Share(r))
  {
    var n := |ids| - 1;
    if ids[n] == id {
      RecountFrame(ids[..n], reqs, reqs[id := r]);
    } else {
      RecountUpdate(ids[..n], reqs, id, r);
    }
  }

  lemma {:induction false} WithoutFirstFacts(ids: seq<nat>, id: nat)
    requires Distinct(ids)
    ensures Distinct(WithoutFirst(ids, id))
    ensures forall x :: x in WithoutFirst(ids, id) <==> x in ids && x != id
    ensures |WithoutFirst(ids, id)| == |ids| - (if id in ids then 1 else 0)
  {
    if |ids| > 0 {
      WithoutFirstFacts(ids[1..], id);
      assert ids == [ids[0]] + ids[1..];
      if ids[0] != id {
        var w := WithoutFirst(ids[1..], id);
        assert forall x :: x in WithoutFirst(ids, id) <==> x == ids[0] || x in w;
        assert ids[0] !in w;
      }
    }
  }

  /** A sum does not depend on which end it is taken from. */
  lemma {:induction false} RecountFront(ids: seq<nat>, reqs: map<nat, Request>)
    requires |ids| > 0 && forall x :: x in ids ==> x in reqs
    ensures Recount(ids, reqs) == Plus(Share(reqs[ids[0]]), Recount(ids[1..], reqs))
  {
    var n := |ids| - 1;
    if n > 0 {
      RecountFront(ids[..n], reqs);
      assert ids[..n][1..] == ids[1..][..n - 1];
    }
  }

  lemma PlusMinus(a: Tally, b: Tally, c: Tally)
    ensures Plus(a, Minus(b, c)) == Minus(Plus(a, b), c) && Minus(Plus(a, b), a) == b
  {
  }

  lemma RecountCons(id: nat, ids: seq<nat>, reqs: map<nat, Request>)
    requires id in reqs && forall x :: x in ids ==> x in reqs
    ensures Recount([id] + ids, reqs) == Plus(Share(reqs[id]), Recount(ids, reqs))
  {
    assert ([id] + ids)[1..] == ids;
    RecountFront([id] + ids, reqs);
  }

  lemma {:induction false} RecountWithout(ids: seq<nat>, reqs: map<nat, Request>, id: nat)
    requires forall x :: x in ids ==> x in reqs
    requires id in ids
    ensures Recount(WithoutFirst(ids, id), reqs) == Minus(Recount(ids, reqs), Share(reqs[id]))
  {
    RecountFront(ids, reqs);
    hide Share, Recount, Plus, Minus;
    if ids[0] != id {
      RecountWithout(ids[1..], reqs, id);
      RecountCons(ids[0], WithoutFirst(ids[1..], id), reqs);
      PlusMinus(Share(reqs[ids[0]]), Recount(ids[1..], reqs), Share(reqs[id]));
    } else {
      PlusMinus(Share(reqs[id]), Recount(ids[1..], reqs), Share(reqs[id]));
    }
  }

  lemma {:induction false} RecountBounds(ids: seq<nat>, reqs: map<nat, Request>)
    requires forall x :: x in ids ==> x in reqs && reqs[x].owned >= 0
    ensures var t := Recount(ids, reqs);
      0 <= t.owned && 0 <= t.debt && 0 <= t.baseOnly <= |ids| && 0 <= t.indebted <= |ids|
    ensures forall x :: x in ids ==> reqs[x].owned <= Recount(ids, reqs).owned
  {
    if |ids| > 0 {
      RecountBounds(ids[..|ids| - 1], reqs);
      assert forall x :: x in ids ==> x in ids[..|ids| - 1] || x == ids[|ids| - 1];
    }
  }

  // ---- the invariant --------------------------------------------------------------------------

  /** Request `r` has chunk `c` under generation `g`, accepted or still pending. */
  ghost predicate Holds(r: Request, c: nat, g: nat) {
    || (c in r.accepted && r.accepted[c] == g)
    || (r.pending.Some? && r.pending.value.chunk == c && r.pending.value.generation == g)
  }

  ghost predicate RequestOk(id: nat, r: Request) {
    && r.owned == ChunkBytes(|r.accepted| + if r.pending.Some? then 1 else 0)
    && r.owned <= REQUEST_CAP
    && 0 <= r.target <= REQUEST_CAP && Aligned(r.target)
    && r.debt == Max0(r.owned - r.target)
    && (r.notify ==> r.pending.Some?)
    && (r.pending.Some? ==>
      !r.waiting && r.pending.value.requestID == id && r.pending.value.chunk !in r.accepted)
  }

  /** What is left of a request after its close. */
  predicate Blank(r: Request) {
    && r.closed && !r.waiting && !r.notify && r.pending.None?
    && r.accepted == map[] && r.owned == 0 && r.debt == 0
  }

  ghost predicate RequestsOk(reqs: map<nat, Request>) {
    forall id :: id in reqs ==> RequestOk(id, reqs[id])
  }

  ghost predicate Balanced(hardBudget: int, allocatedBytes: int, ownedBytes: int, free: nat, chunks: nat) {
    && ValidBudget(hardBudget)
    && allocatedBytes == ChunkBytes(chunks)
    && allocatedBytes <= hardBudget
    && allocatedBytes == ownedBytes + ChunkBytes(free)
  }

  ghost predicate FreeList(free: seq<nat>, chunks: map<nat, Chunk>) {
    && Distinct(free)
    && (forall c :: c in free <==> c in chunks && chunks[c].ownerID == 0)
  }

  ghost predicate Generations(chunks: map<nat, Chunk>, nextChunkID: nat, nextGrant: nat) {
    && (forall c :: c in chunks <==> 1 <= c <= nextChunkID)
    && (forall c :: c in chunks ==> 1 <= chunks[c].generation <= nextGrant)
    && (forall c, d :: c in chunks && d in chunks && chunks[c].generation == chunks[d].generation ==> c == d)
  }

  ghost predicate Ownership(reqs: map<nat, Request>, chunks: map<nat, Chunk>) {
    && (forall id, c, g :: id in reqs && Holds(reqs[id], c, g) ==> c in chunks && chunks[c] == Chunk(g, id))
    && (forall c :: c in chunks && chunks[c].ownerID != 0 ==>
      chunks[c].ownerID in reqs && Holds(reqs[chunks[c].ownerID], c, chunks[c].generation))
  }

  ghost predicate Roster(requests: seq<nat>, reqs: map<nat, Request>, nextRequestID: nat) {
    && Distinct(requests)
    && (forall id :: id in requests ==> id in reqs)
    && (forall id :: id in reqs <==> 1 <= id <= nextRequestID)
    && (forall id :: id in reqs && id !in requests ==> Blank(reqs[id]))
  }

  ghost predicate Core(s: Pool) {
    && Roster(s.requests, s.reqs, s.nextRequestID)
    && RequestsOk(s.reqs)
    && Balanced(s.hardBudget, s.allocatedBytes, s.ownedBytes, |s.free|, s.nextChunkID)
    && Recount(s.requests, s.reqs) == Tally(s.ownedBytes, s.debtBytes, s.baseOnly, s.indebted)
    && FreeList(s.free, s.chunks)
    && Generations(s.chunks, s.nextChunkID, s.nextGrant)
    && Ownership(s.reqs, s.chunks)
  }

  /** Exactly the requests listed in `ws` have their waiting flag set, each listed once. */
  ghost predicate WaitersAre(s: Pool, ws: seq<nat>) {
    && Distinct(ws)
    && (forall id :: id in ws ==> id in s.reqs)
    && (forall id :: id in s.reqs ==> (s.reqs[id].waiting <==> id in ws))
  }

  ghost predicate Targets(s: Pool)
    requires Registered(s)
  {
    |s.requests| > 0 ==>
      forall id :: id in s.requests ==> s.reqs[id].target == TargetFor(s.hardBudget, |s.requests|)
  }

  ghost predicate Open(s: Pool)
    requires Registered(s)
  {
    forall id :: id in s.requests ==> !s.reqs[id].closed
  }

  ghost predicate Sound(s: Pool) {
    Core(s) && WaitersAre(s, s.waiters) && Targets(s)
  }

  /** The invariant of the allocator between critical sections. */
  ghost predicate Inv(s: Pool) {
    Sound(s) && Open(s)
  }

  /** No listed waiter could be granted a chunk. */
  ghost predicate WorkConserving(s: Pool)
    requires WaitersKnown(s)
  {
    forall id :: id in s.waiters ==> !CanGrant(s, id)
  }

  lemma InitialPoolInv(hardBudget: int)
    requires ValidBudget(hardBudget)
    ensures Inv(InitialPool(hardBudget)) && WorkConserving(InitialPool(hardBudget))
  {
  }

  // ---- changes to one request -----------------------------------------------------------------

  /** Holdings are the same in `b` as in `a`, so the chunks stay where they are. */
  lemma SameHoldingsKeepOwnership(a: map<nat, Request>, b: map<nat, Request>, chunks: map<nat, Chunk>)
    requires Ownership(a, chunks) && b.Keys == a.Keys
    requires forall x, c, g :: x in b ==> (Holds(b[x], c, g) <==> Holds(a[x], c, g))
    ensures Ownership(b, chunks)
  {
    forall c | c in chunks && chunks[c].ownerID != 0
      ensures chunks[c].ownerID in b && Holds(b[chunks[c].ownerID], c, chunks[c].generation)
    {
      assert Holds(a[chunks[c].ownerID], c, chunks[c].generation);
    }
  }

  lemma UpdateKeepsRoster(s: Pool, id: nat, r: Request)
    requires Roster(s.requests, s.reqs, s.nextRequestID) && id in s.requests
    ensures Roster(s.requests, s.reqs[id := r], s.nextRequestID)
  {
  }

  /** Changing a request's flags, but none of its bytes or chunks. */
  lemma TouchKeepsCore(s: Pool, id: nat, r: Request)
    requires Core(s) && id in s.requests
    requires RequestOk(id, r) && Share(r) == Share(s.reqs[id])
    requires forall c, g :: Holds(r, c, g) <==> Holds(s.reqs[id], c, g)
    ensures Core(SetRequest(s, id, r))
  {
    UpdateKeepsRoster(s, id, r);
    RecountFrame(s.requests, s.reqs, s.reqs[id := r]);
    SameHoldingsKeepOwnership(s.reqs, s.reqs[id := r], s.chunks);
  }

  /** The counters still agree with a recount once a request is re-accounted. */
  lemma ReaccountCounters(s: Pool, id: nat, r: Request)
    requires Distinct(s.requests) && Registered(s) && id in s.requests
    requires r.debt >= 0 && s.reqs[id].debt >= 0
    ensures var p := Reaccount(s, id, r);
      && Recount(p.requests, p.reqs) == Plus(Minus(Recount(s.requests, s.reqs), Share(s.reqs[id])), Share(r))
      && p.debtBytes == s.debtBytes - Share(s.reqs[id]).debt + Share(r).debt
      && p.baseOnly == s.baseOnly - Share(s.reqs[id]).baseOnly + Share(r).baseOnly
      && p.indebted == s.indebted - Share(s.reqs[id]).indebted + Share(r).indebted
  {
    RecountUpdate(s.requests, s.reqs, id, r);
  }

  /** Re-accounting a request whose bytes and chunks stay, because its debt moved. */
  lemma ReaccountKeepsCore(s: Pool, id: nat, r: Request)
    requires Core(s) && id in s.requests
    requires RequestOk(id, r) && r.owned == s.reqs[id].owned
    requires forall c, g :: Holds(r, c, g) <==> Holds(s.reqs[id], c, g)
    ensures Core(Reaccount(s, id, r))
  {
    hide Recount, Distinct, FreeList, Generations, Ownership, Balanced;
    UpdateKeepsRoster(s, id, r);
    ReaccountCounters(s, id, r);
    SameHoldingsKeepOwnership(s.reqs, s.reqs[id := r], s.chunks);
  }

  lemma RetargetOneKeepsCore(s: Pool, id: nat, target: int)
    requires Core(s) && id in s.requests
    requires 0 <= target <= REQUEST_CAP && Aligned(target)
    ensures Core(Reaccount(s, id, WithTarget(s.reqs[id], target)))
  {
    var r := WithTarget(s.reqs[id], target);
    assert RequestOk(id, r) by {
      assert RequestOk(id, s.reqs[id]);
    }
    ReaccountKeepsCore(s, id, r);
  }

  /** A request once its pending lease has been accepted. */
  function WithLease(r: Request, lease: Lease): Request {
    r.(pending := None, notify := false, accepted := r.accepted[lease.chunk := lease.generation])
  }

  lemma AcceptedIsOk(id: nat, r: Request)
    requires RequestOk(id, r) && r.pending.Some?
    ensures RequestOk(id, WithLease(r, r.pending.value))
    ensures forall c, g :: Holds(WithLease(r, r.pending.value), c, g) <==> Holds(r, c, g)
  {
    var lease := r.pending.value;
    var r' := WithLease(r, lease);
    assert r'.accepted.Keys == r.accepted.Keys + {lease.chunk};
    assert |r'.accepted| == |r'.accepted.Keys| == |r.accepted.Keys| + 1;
  }

  // ---- granting a chunk -----------------------------------------------------------------------

  lemma GrantGenerations(chunks: map<nat, Chunk>, n: nat, g: nat, c: nat, id: nat)
    requires Generations(chunks, n, g) && 1 <= c <= n + 1
    ensures Generations(chunks[c := Chunk(g + 1, id)], if c == n + 1 then n + 1 else n, g + 1)
  {
  }

  lemma GrantFreeList(free: seq<nat>, chunks: map<nat, Chunk>, c: nat, g: nat, id: nat, rest: seq<nat>)
    requires FreeList(free, chunks) && id != 0
    requires if |free| > 0 then c == free[|free| - 1] && rest == free[..|free| - 1] else rest == [] && c !in chunks
    ensures FreeList(rest, chunks[c := Chunk(g, id)])
  {
    var after := chunks[c := Chunk(g, id)];
    forall x ensures x in rest <==> x in after && after[x].ownerID == 0 {
      if |free| > 0 {
        assert free == rest + [c];
      }
    }
  }

  lemma GrantOwnership(reqs: map<nat, Request>, chunks: map<nat, Chunk>, id: nat, r: Request, c: nat, g: nat)
    requires Ownership(reqs, chunks) && id in reqs
    requires c in chunks ==> chunks[c].ownerID == 0
    requires forall d, h :: Holds(r, d, h) <==> Holds(reqs[id], d, h) || (d == c && h == g)
    requires forall x :: x in reqs ==> x != 0
    ensures Ownership(reqs[id := r], chunks[c := Chunk(g, id)])
  {
    var reqs', chunks' := reqs[id := r], chunks[c := Chunk(g, id)];
    forall x, d, h | x in reqs' && Holds(reqs'[x], d, h)
      ensures d in chunks' && chunks'[d] == Chunk(h, x)
    {
      if !(x == id && d == c && h == g) {
        assert Holds(reqs[x], d, h);
      }
    }
    forall d | d in chunks' && chunks'[d].ownerID != 0
      ensures chunks'[d].ownerID in reqs' && Holds(reqs'[chunks'[d].ownerID], d, chunks'[d].generation)
    {
      if d == c {
        assert Holds(r, c, g);
      } else {
        assert Holds(reqs[chunks[d].ownerID], d, chunks[d].generation);
      }
    }
  }

  /** A request once chunk `c` has been granted to it under generation `g`. */
  function GrantedTo(r: Request, id: nat, c: nat, g: nat): Request {
    WithOwned(r.(waiting := false, notify := true, pending := Some(Lease(c, id, g))), r.owned + CHUNK)
  }

  /** The chunk a grant would take now. */
  function NextChunk(s: Pool): nat {
    if |s.free| > 0 then s.free[|s.free| - 1] else s.nextChunkID + 1
  }

  function AfterGrant(s: Pool, id: nat): Pool
    requires id in s.reqs
  {
    var c, g := NextChunk(s), s.nextGrant + 1;
    var r := GrantedTo(s.reqs[id], id, c, g);
    Reaccount(s, id, r).(
      ownedBytes := s.ownedBytes + CHUNK,
      allocatedBytes := if |s.free| > 0 then s.allocatedBytes else s.allocatedBytes + CHUNK,
      free := if |s.free| > 0 then s.free[..|s.free| - 1] else s.free,
      nextChunkID := if |s.free| > 0 then s.nextChunkID else s.nextChunkID + 1,
      nextGrant := g,
      chunks := s.chunks[c := Chunk(g, id)])
  }

  /** Granting, step by step as the scheduler does it, comes to one update of the pool. */
  lemma ScheduleOneGrants(s: Pool, id: nat)
    requires id in s.reqs && CanGrant(s, id)
    ensures ScheduleOne(s, id) == AfterGrant(s, id)
  {
    var p := ScheduleOne(s, id);
    var q := AfterGrant(s, id);
    assert p.reqs == q.reqs;
    assert p.chunks == q.chunks;
  }

  lemma GrantKeepsRequestOk(id: nat, r: Request, c: nat, g: nat)
    requires RequestOk(id, r) && r.pending.None? && r.owned + CHUNK <= r.target && c !in r.accepted
    ensures RequestOk(id, GrantedTo(r, id, c, g)) && GrantedTo(r, id, c, g).debt == 0
  {
  }

  lemma NextChunkIsFree(free: seq<nat>, chunks: map<nat, Chunk>, reqs: map<nat, Request>, n: nat, g: nat, c: nat)
    requires FreeList(free, chunks) && Generations(chunks, n, g) && Ownership(reqs, chunks)
    requires c == if |free| > 0 then free[|free| - 1] else n + 1
    requires 0 !in reqs
    ensures c in chunks ==> chunks[c].ownerID == 0
    ensures 1 <= c <= n + 1 && (c == n + 1 <==> |free| == 0) && (c == n + 1 ==> c !in chunks)
    ensures forall id :: id in reqs ==> c !in reqs[id].accepted
  {
    assert |free| > 0 ==> c in free;
    forall id | id in reqs
      ensures c !in reqs[id].accepted
    {
      if c in reqs[id].accepted {
        assert Holds(reqs[id], c, reqs[id].accepted[c]);
      }
    }
  }

  lemma GrantKeepsBytes(s: Pool, id: nat)
    requires Roster(s.requests, s.reqs, s.nextRequestID) && id in s.requests && CanGrant(s, id)
    requires Balanced(s.hardBudget, s.allocatedBytes, s.ownedBytes, |s.free|, s.nextChunkID)
    requires Recount(s.requests, s.reqs) == Tally(s.ownedBytes, s.debtBytes, s.baseOnly, s.indebted)
    ensures var p := AfterGrant(s, id);
      && Balanced(p.hardBudget, p.allocatedBytes, p.ownedBytes, |p.free|, p.nextChunkID)
      && Recount(p.requests, p.reqs) == Tally(p.ownedBytes, p.debtBytes, p.baseOnly, p.indebted)
      && p.debtBytes == s.debtBytes
  {
    hide Recount, Distinct, Blank;
    ReaccountCounters(s, id, GrantedTo(s.reqs[id], id, NextChunk(s), s.nextGrant + 1));
  }

  lemma GrantKeepsPlacement(s: Pool, id: nat)
    requires FreeList(s.free, s.chunks) && Generations(s.chunks, s.nextChunkID, s.nextGrant)
    requires Ownership(s.reqs, s.chunks) && id in s.reqs && 0 !in s.reqs && s.reqs[id].pending.None?
    ensures var p := AfterGrant(s, id);
      && FreeList(p.free, p.chunks)
      && Generations(p.chunks, p.nextChunkID, p.nextGrant)
      && Ownership(p.reqs, p.chunks)
  {
    hide FreeList, Generations, Ownership, Recount;
    var c, g := NextChunk(s), s.nextGrant + 1;
    NextChunkIsFree(s.free, s.chunks, s.reqs, s.nextChunkID, s.nextGrant, c);
    GrantGenerations(s.chunks, s.nextChunkID, s.nextGrant, c, id);
    GrantFreeList(s.free, s.chunks, c, g, id, AfterGrant(s, id).free);
    GrantOwnership(s.reqs, s.chunks, id, GrantedTo(s.reqs[id], id, c, g), c, g);
  }

  lemma GrantKeepsCore(s: Pool, id: nat)
    requires Core(s) && id in s.requests && CanGrant(s, id)
    ensures Core(AfterGrant(s, id)) && AfterGrant(s, id).debtBytes == s.debtBytes
  {
    hide FreeList, Generations, Ownership, Balanced, Recount;
    NextChunkIsFree(s.free, s.chunks, s.reqs, s.nextChunkID, s.nextGrant, NextChunk(s));
    GrantKeepsRequestOk(id, s.reqs[id], NextChunk(s), s.nextGrant + 1);
    GrantKeepsBytes(s, id);
    GrantKeepsPlacement(s, id);
    UpdateKeepsRoster(s, id, AfterGrant(s, id).reqs[id]);
  }

  // ---- taking a chunk back --------------------------------------------------------------------

  lemma ReturnOwnership(reqs: map<nat, Request>, chunks: map<nat, Chunk>, id: nat, r: Request, c: nat)
    requires Ownership(reqs, chunks) && id in reqs
    requires c in chunks && chunks[c].ownerID == id
    requires forall d, h :: Holds(r, d, h) <==> Holds(reqs[id], d, h) && d != c
    ensures Ownership(reqs[id := r], chunks[c := chunks[c].(ownerID := 0)])
  {
    var reqs', chunks' := reqs[id := r], chunks[c := chunks[c].(ownerID := 0)];
    forall x, d, h | x in reqs' && Holds(reqs'[x], d, h)
      ensures d in chunks' && chunks'[d] == Chunk(h, x)
    {
      assert Holds(reqs[x], d, h);
    }
    forall d | d in chunks' && chunks'[d].ownerID != 0
      ensures chunks'[d].ownerID in reqs' && Holds(reqs'[chunks'[d].ownerID], d, chunks'[d].generation)
    {
      assert Holds(reqs[chunks[d].ownerID], d, chunks[d].generation);
    }
  }

  lemma ReturnPlacement(free: seq<nat>, chunks: map<nat, Chunk>, n: nat, g: nat, c: nat)
    requires FreeList(free, chunks) && Generations(chunks, n, g)
    requires c in chunks && chunks[c].ownerID != 0
    ensures FreeList(free + [c], chunks[c := chunks[c].(ownerID := 0)])
    ensures Generations(chunks[c := chunks[c].(ownerID := 0)], n, g)
  {
  }

  /** Request `id`, now described by `r`, has given chunk `c` back. */
  function AfterReturn(s: Pool, id: nat, r: Request, c: nat): Pool
    requires id in s.reqs && c in s.chunks
  {
    Reaccount(s, id, r).(
      ownedBytes := s.ownedBytes - CHUNK,
      free := s.free + [c],
      chunks := s.chunks[c := s.chunks[c].(ownerID := 0)])
  }

  function WithoutAccepted(r: Request, c: nat): Request {
    WithOwned(r.(accepted := r.accepted - {c}), r.owned - CHUNK)
  }

  function WithoutPending(r: Request): Request {
    WithOwned(r.(pending := None, notify := false), r.owned - CHUNK)
  }

  lemma ReleaseAcceptedIs(s: Pool, id: nat, c: nat)
    requires id in s.reqs && c in s.chunks
    ensures ReleaseAccepted(s, id, c) == AfterReturn(s, id, WithoutAccepted(s.reqs[id], c), c)
  {
    assert ReleaseAccepted(s, id, c).reqs == AfterReturn(s, id, WithoutAccepted(s.reqs[id], c), c).reqs;
  }

  lemma ReclaimPendingIs(s: Pool, id: nat)
    requires id in s.reqs && s.reqs[id].pending.Some? && s.reqs[id].pending.value.chunk in s.chunks
    ensures ReclaimPending(s, id) == AfterReturn(s, id, WithoutPending(s.reqs[id]), s.reqs[id].pending.value.chunk)
  {
    var c := s.reqs[id].pending.value.chunk;
    assert ReclaimPending(s, id).reqs == AfterReturn(s, id, WithoutPending(s.reqs[id]), c).reqs;
  }

  lemma ReturnKeepsBytes(s: Pool, id: nat, r: Request, c: nat)
    requires Roster(s.requests, s.reqs, s.nextRequestID) && id in s.requests && c in s.chunks
    requires Balanced(s.hardBudget, s.allocatedBytes, s.ownedBytes, |s.free|, s.nextChunkID)
    requires Recount(s.requests, s.reqs) == Tally(s.ownedBytes, s.debtBytes, s.baseOnly, s.indebted)
    requires RequestOk(id, s.reqs[id]) && RequestOk(id, r)
    requires r.owned == s.reqs[id].owned - CHUNK && r.target == s.reqs[id].target
    ensures var p := AfterReturn(s, id, r, c);
      && Balanced(p.hardBudget, p.allocatedBytes, p.ownedBytes, |p.free|, p.nextChunkID)
      && Recount(p.requests, p.reqs) == Tally(p.ownedBytes, p.debtBytes, p.baseOnly, p.indebted)
      && p.debtBytes <= s.debtBytes
  {
    hide Recount, Distinct, Blank;
    ReaccountCounters(s, id, r);
  }

  lemma ReturnKeepsCore(s: Pool, id: nat, r: Request, c: nat)
    requires Core(s) && id in s.requests
    requires c in s.chunks && s.chunks[c].ownerID == id
    requires forall d, h :: Holds(r, d, h) <==> Holds(s.reqs[id], d, h) && d != c
    requires RequestOk(id, r) && r.owned == s.reqs[id].owned - CHUNK && r.target == s.reqs[id].target
    ensures Core(AfterReturn(s, id, r, c)) && AfterReturn(s, id, r, c).debtBytes <= s.debtBytes
  {
    hide Recount, FreeList, Generations, Ownership, Distinct, Balanced;
    ReturnKeepsBytes(s, id, r, c);
    UpdateKeepsRoster(s, id, r);
    ReturnOwnership(s.reqs, s.chunks, id, r, c);
    ReturnPlacement(s.free, s.chunks, s.nextChunkID, s.nextGrant, c);
  }

  lemma WithoutAcceptedIsOk(id: nat, r: Request, c: nat)
    requires RequestOk(id, r) && c in r.accepted
    ensures RequestOk(id, WithoutAccepted(r, c))
    ensures forall d, h :: Holds(WithoutAccepted(r, c), d, h) <==> Holds(r, d, h) && d != c
  {
    var r' := WithoutAccepted(r, c);
    assert r'.accepted.Keys == r.accepted.Keys - {c};
    assert |r'.accepted| == |r'.accepted.Keys| == |r.accepted.Keys| - 1;
  }

  lemma WithoutPendingIsOk(id: nat, r: Request)
    requires RequestOk(id, r) && r.pending.Some?
    ensures RequestOk(id, WithoutPending(r))
    ensures forall d, h :: Holds(WithoutPending(r), d, h) <==> Holds(r, d, h) && d != r.pending.value.chunk
  {
  }
}

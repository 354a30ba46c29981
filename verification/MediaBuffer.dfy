/**
 The allocator on the heap: `mediaBuffer`, its requests and its chunks as objects updated in place,
 with the waiter list filtered inside its own backing array. Every method is tied to the function of
 `MediaBufferModel` it runs, through the ghost field `state`. The places where the program would
 panic are assertions here.
 */
module MediaBufferHeap {
  import opened Wrappers
  import Model = MediaBufferModel
  import opened MediaBufferInvariant
  import opened MediaBufferSchedule
  import opened MediaBufferOperations
  import opened MediaBufferClose
  import Runs = MediaBufferRuns

  class Chunk {
    const id: nat
    var generation: nat
    var ownerID: nat

    constructor (id: nat)
      ensures this.id == id && generation == 0 && ownerID == 0
    {
      this.id := id;
      generation, ownerID := 0, 0;
    }
  }

  datatype Lease = Lease(chunk: Chunk?, requestID: nat, generation: nat)

  class Request {
    const id: nat
    var target: int
    var owned: int
    var debt: int
    var waiting: bool
    var closed: bool
    var notify: bool
    var pending: Option<Lease>
    var chunks: map<Chunk, nat>

    constructor (id: nat)
      ensures this.id == id && target == owned == debt == 0
      ensures !waiting && !closed && !notify && pending == None && chunks == map[]
    {
      this.id := id;
      target, owned, debt := 0, 0, 0;
      waiting, closed, notify := false, false, false;
      pending, chunks := None, map[];
    }

    method RecomputeDebt()
      modifies this`debt
      ensures debt == Model.Max0(owned - target)
    {
      debt := owned - target;
      if debt < 0 {
        debt := 0;
      }
    }
  }

  // ---- how the objects stand for a pool ---------------------------------------------------------

  ghost predicate LeaseMatches(made: map<nat, Chunk>, h: Lease, l: Model.Lease) {
    && h.chunk != null && h.chunk.id in made && made[h.chunk.id] == h.chunk
    && l == Model.Lease(h.chunk.id, h.requestID, h.generation)
  }

  ghost predicate HoldingsMatch(made: map<nat, Chunk>, chunks: map<Chunk, nat>, accepted: map<nat, nat>) {
    && (forall ch :: ch in chunks ==>
      ch.id in made && made[ch.id] == ch && ch.id in accepted && accepted[ch.id] == chunks[ch])
    && (forall c :: c in accepted ==> c in made && made[c] in chunks)
  }

  ghost predicate RequestMatches(made: map<nat, Chunk>, r: Request, q: Model.Request)
    reads r
  {
    && q.target == r.target && q.owned == r.owned && q.debt == r.debt
    && q.waiting == r.waiting && q.closed == r.closed && q.notify == r.notify
    && (r.pending.None? <==> q.pending.None?)
    && (r.pending.Some? ==> LeaseMatches(made, r.pending.value, q.pending.value))
    && HoldingsMatch(made, r.chunks, q.accepted)
  }

  ghost predicate RequestsMatch(known: map<nat, Request>, made: map<nat, Chunk>, reqs: map<nat, Model.Request>)
    reads set id | id in known :: known[id]
  {
    && known.Keys == reqs.Keys
    && forall id :: id in known ==> known[id].id == id && RequestMatches(made, known[id], reqs[id])
  }

  ghost predicate ChunksMatch(made: map<nat, Chunk>, chunks: map<nat, Model.Chunk>)
    reads set c | c in made :: made[c]
  {
    && made.Keys == chunks.Keys
    && forall c :: c in made ==>
      made[c].id == c && chunks[c] == Model.Chunk(made[c].generation, made[c].ownerID)
  }

  ghost predicate FreeMatch(made: map<nat, Chunk>, free: seq<Chunk>, ids: seq<nat>) {
    && |free| == |ids|
    && forall i :: 0 <= i < |free| ==> ids[i] in made && free[i] == made[ids[i]]
  }

  ghost predicate RosterMatch(known: map<nat, Request>, requests: seq<Request>, ids: seq<nat>) {
    && |requests| == |ids|
    && forall i :: 0 <= i < |requests| ==> ids[i] in known && requests[i] == known[ids[i]]
  }

  ghost predicate WaitersMatch(known: map<nat, Request>, waiters: array<Request?>, count: nat, ids: seq<nat>)
    reads waiters
  {
    && count == |ids| <= waiters.Length
    && forall i :: 0 <= i < count ==> ids[i] in known && waiters[i] == known[ids[i]]
  }

  lemma RequestAt(known: map<nat, Request>, made: map<nat, Chunk>, reqs: map<nat, Model.Request>, r: Request)
    requires RequestsMatch(known, made, reqs) && r.id in known && known[r.id] == r
    ensures r.id in reqs && RequestMatches(made, r, reqs[r.id])
  {
  }

  /** Every request object but number `id` stands for its record. */
  ghost predicate OthersMatch(known: map<nat, Request>, made: map<nat, Chunk>, reqs: map<nat, Model.Request>, id: nat)
    reads set x | x in known && x != id :: known[x]
  {
    && known.Keys == reqs.Keys
    && forall x :: x in known && x != id ==> known[x].id == x && RequestMatches(made, known[x], reqs[x])
  }

  /** Takes one request object out of the correspondence, so that it may be rewritten. */
  lemma Detach(known: map<nat, Request>, made: map<nat, Chunk>, reqs: map<nat, Model.Request>, r: Request)
    requires RequestsMatch(known, made, reqs) && r.id in known && known[r.id] == r
    ensures OthersMatch(known, made, reqs, r.id)
    ensures r.id in reqs && RequestMatches(made, r, reqs[r.id])
    ensures forall x :: x in known && x != r.id ==> known[x] != r
  {
  }

  lemma Attach(known: map<nat, Request>, made: map<nat, Chunk>, reqs: map<nat, Model.Request>, r: Request,
      q: Model.Request)
    requires OthersMatch(known, made, reqs, r.id) && r.id in known && known[r.id] == r
    requires RequestMatches(made, r, q)
    ensures RequestsMatch(known, made, reqs[r.id := q])
  {
    hide HoldingsMatch, LeaseMatches;
  }

  ghost predicate OtherChunksMatch(made: map<nat, Chunk>, chunks: map<nat, Model.Chunk>, id: nat)
    reads set c | c in made && c != id :: made[c]
  {
    && made.Keys == chunks.Keys
    && forall c :: c in made && c != id ==>
      made[c].id == c && chunks[c] == Model.Chunk(made[c].generation, made[c].ownerID)
  }

  lemma DetachChunk(made: map<nat, Chunk>, chunks: map<nat, Model.Chunk>, chunk: Chunk)
    requires ChunksMatch(made, chunks) && chunk.id in made && made[chunk.id] == chunk
    ensures OtherChunksMatch(made, chunks, chunk.id)
    ensures chunk.id in chunks && chunks[chunk.id] == Model.Chunk(chunk.generation, chunk.ownerID)
    ensures forall c :: c in made && c != chunk.id ==> made[c] != chunk
  {
  }

  lemma AttachChunk(made: map<nat, Chunk>, chunks: map<nat, Model.Chunk>, chunk: Chunk)
    requires OtherChunksMatch(made, chunks, chunk.id) && chunk.id in made && made[chunk.id] == chunk
    ensures ChunksMatch(made, chunks[chunk.id := Model.Chunk(chunk.generation, chunk.ownerID)])
  {
  }

  lemma MadeGrows(known: map<nat, Request>, made: map<nat, Chunk>, reqs: map<nat, Model.Request>, c: nat, chunk: Chunk)
    requires RequestsMatch(known, made, reqs) && c !in made
    ensures RequestsMatch(known, made[c := chunk], reqs)
  {
  }

  lemma ChunkMade(made: map<nat, Chunk>, chunks: map<nat, Model.Chunk>, chunk: Chunk)
    requires ChunksMatch(made, chunks) && chunk.id !in made && chunk.generation == 0 && chunk.ownerID == 0
    ensures ChunksMatch(made[chunk.id := chunk], chunks[chunk.id := Model.Chunk(0, 0)])
  {
  }

  lemma FreeSurvives(made: map<nat, Chunk>, free: seq<Chunk>, ids: seq<nat>, chunk: Chunk)
    requires FreeMatch(made, free, ids) && chunk.id !in made
    ensures FreeMatch(made[chunk.id := chunk], free, ids)
  {
  }

  lemma MadeAre(made: map<nat, Chunk>, chunks: map<nat, Model.Chunk>)
    requires ChunksMatch(made, chunks)
    ensures made.Keys == chunks.Keys
  {
  }

  lemma HoldingsRemoved(made: map<nat, Chunk>, chunks: map<Chunk, nat>, accepted: map<nat, nat>, chunk: Chunk)
    requires HoldingsMatch(made, chunks, accepted)
    requires forall c :: c in made ==> made[c].id == c
    requires chunk.id in made && made[chunk.id] == chunk
    ensures HoldingsMatch(made, chunks - {chunk}, accepted - {chunk.id})
  {
    forall ch | ch in chunks - {chunk}
      ensures ch.id in accepted - {chunk.id}
    {
      assert ch.id in made && made[ch.id] == ch;
    }
  }

  lemma HoldingsAdded(made: map<nat, Chunk>, chunks: map<Chunk, nat>, accepted: map<nat, nat>, chunk: Chunk, g: nat)
    requires HoldingsMatch(made, chunks, accepted)
    requires forall c :: c in made ==> made[c].id == c
    requires chunk.id in made && made[chunk.id] == chunk
    ensures HoldingsMatch(made, chunks[chunk := g], accepted[chunk.id := g])
  {
  }

  class MediaBuffer {
    const hardBudget: int
    var allocatedBytes: int
    var ownedBytes: int
    var free: seq<Chunk>
    var requests: seq<Request>
    var waiters: array<Request?>
    var waiterCount: nat
    var nextRequestID: nat
    var nextChunkID: nat
    var nextGrant: nat
    var baseOnly: int
    var indebted: int
    var debtBytes: int

    ghost var state: Model.Pool
    ghost var known: map<nat, Request>
    ghost var made: map<nat, Chunk>

    ghost function Repr(): set<object>
      reads this
    {
      {this, waiters} + (set id | id in known :: known[id]) + (set c | c in made :: made[c])
    }

    ghost predicate CountersMatch()
      reads this
    {
      && state.hardBudget == hardBudget && state.allocatedBytes == allocatedBytes && state.ownedBytes == ownedBytes
      && state.nextRequestID == nextRequestID && state.nextChunkID == nextChunkID && state.nextGrant == nextGrant
      && state.baseOnly == baseOnly && state.indebted == indebted && state.debtBytes == debtBytes
    }

    ghost predicate Coupled()
      reads Repr()
    {
      && CountersMatch()
      && ChunksMatch(made, state.chunks)
      && RequestsMatch(known, made, state.reqs)
      && FreeMatch(made, free, state.free)
      && RosterMatch(known, requests, state.requests)
      && WaitersMatch(known, waiters, waiterCount, state.waiters)
    }

    ghost predicate Valid()
      reads Repr()
    {
      Coupled() && Steady(state)
    }

    /** `r` was handed out by this buffer. */
    ghost predicate Owns(r: Request)
      reads this
    {
      r.id in known && known[r.id] == r
    }

    ghost predicate OwnsChunk(chunk: Chunk)
      reads this
    {
      chunk.id in made && made[chunk.id] == chunk
    }

    method AddCounters(r: Request)
      requires Coupled() && Owns(r)
      modifies this`baseOnly, this`indebted, this`debtBytes, this`state
      ensures Coupled() && r.id in old(state).reqs
      ensures state == Model.AddCounters(old(state), old(state).reqs[r.id])
    {
      hide ChunksMatch, RequestsMatch, FreeMatch, RosterMatch, WaitersMatch, HoldingsMatch;
      RequestAt(known, made, state.reqs, r);
      state := Model.AddCounters(state, state.reqs[r.id]);
      if r.owned == 0 {
        baseOnly := baseOnly + 1;
      }
      if r.debt > 0 {
        indebted := indebted + 1;
        debtBytes := debtBytes + r.debt;
      }
    }

    method RemoveCounters(r: Request)
      requires Coupled() && Owns(r)
      modifies this`baseOnly, this`indebted, this`debtBytes, this`state
      ensures Coupled() && r.id in old(state).reqs
      ensures state == Model.RemoveCounters(old(state), old(state).reqs[r.id])
    {
      hide ChunksMatch, RequestsMatch, FreeMatch, RosterMatch, WaitersMatch, HoldingsMatch;
      RequestAt(known, made, state.reqs, r);
      state := Model.RemoveCounters(state, state.reqs[r.id]);
      if r.owned == 0 {
        baseOnly := baseOnly - 1;
      }
      if r.debt > 0 {
        indebted := indebted - 1;
        debtBytes := debtBytes - r.debt;
      }
    }

    /** Rewrites who a chunk belongs to. */
    method Stamp(chunk: Chunk, generation: nat, ownerID: nat)
      requires Coupled() && OwnsChunk(chunk)
      modifies chunk`generation, chunk`ownerID, this`state
      ensures Coupled() && chunk.generation == generation && chunk.ownerID == ownerID
      ensures state == old(state).(chunks := old(state).chunks[chunk.id := Model.Chunk(generation, ownerID)])
    {
      hide RequestsMatch, RosterMatch, WaitersMatch, FreeMatch, ChunksMatch, OtherChunksMatch;
      DetachChunk(made, state.chunks, chunk);
      chunk.generation, chunk.ownerID := generation, ownerID;
      AttachChunk(made, state.chunks, chunk);
      state := state.(chunks := state.chunks[chunk.id := Model.Chunk(generation, ownerID)]);
    }

    method SetOwned(r: Request, delta: int)
      requires Coupled() && Owns(r)
      modifies this`state, r`owned, r`debt
      ensures Coupled() && r.id in old(state).reqs
      ensures var q := old(state).reqs[r.id];
        state == Model.SetRequest(old(state), r.id, Model.WithOwned(q, q.owned + delta))
    {
      hide RequestsMatch, RosterMatch, WaitersMatch, FreeMatch, ChunksMatch, OthersMatch, HoldingsMatch;
      Detach(known, made, state.reqs, r);
      ghost var q := state.reqs[r.id];
      r.owned := r.owned + delta;
      r.RecomputeDebt();
      Attach(known, made, state.reqs, r, Model.WithOwned(q, q.owned + delta));
      state := Model.SetRequest(state, r.id, Model.WithOwned(q, q.owned + delta));
    }

    /** Moves a request's bytes, keeping its debt and the counters in step. */
    method AdjustOwned(r: Request, delta: int)
      requires Coupled() && Owns(r)
      modifies this`baseOnly, this`indebted, this`debtBytes, this`state, r`owned, r`debt
      ensures Coupled() && r.id in old(state).reqs
      ensures var q := old(state).reqs[r.id];
        state == Model.Reaccount(old(state), r.id, Model.WithOwned(q, q.owned + delta))
    {
      hide Coupled;
      RemoveCounters(r);
      SetOwned(r, delta);
      AddCounters(r);
    }

    method ReleaseOwnedChunk(r: Request, chunk: Chunk)
      requires Coupled() && Owns(r) && OwnsChunk(chunk)
      modifies this`ownedBytes, this`free, this`baseOnly, this`indebted, this`debtBytes, this`state
      modifies r`owned, r`debt, chunk`ownerID, chunk`generation
      ensures Coupled() && r.id in old(state).reqs && chunk.id in old(state).chunks
      ensures state == Model.ReleaseOwnedChunk(old(state), r.id, chunk.id)
    {
      hide RequestsMatch, RosterMatch, WaitersMatch, ChunksMatch;
      GenerationOf(chunk);
      Stamp(chunk, chunk.generation, 0);
      AdjustOwned(r, -Model.CHUNK);
      ownedBytes := ownedBytes - Model.CHUNK;
      free := free + [chunk];
      state := state.(ownedBytes := ownedBytes, free := state.free + [chunk.id]);
    }

    lemma GenerationOf(chunk: Chunk)
      requires Coupled() && OwnsChunk(chunk)
      ensures chunk.id in state.chunks && state.chunks[chunk.id] == Model.Chunk(chunk.generation, chunk.ownerID)
    {
    }

    method ReleaseAccepted(r: Request, chunk: Chunk)
      requires Coupled() && Owns(r) && OwnsChunk(chunk)
      modifies this`ownedBytes, this`free, this`baseOnly, this`indebted, this`debtBytes, this`state
      modifies r`chunks, r`owned, r`debt, chunk`ownerID, chunk`generation
      ensures Coupled() && r.id in old(state).reqs && chunk.id in old(state).chunks
      ensures state == Model.ReleaseAccepted(old(state), r.id, chunk.id)
      ensures r.chunks == old(r.chunks) - {chunk}
    {
      hide Coupled;
      DropAccepted(r, chunk);
      ReleaseOwnedChunk(r, chunk);
    }

    method DropAccepted(r: Request, chunk: Chunk)
      requires Coupled() && Owns(r) && OwnsChunk(chunk)
      modifies this`state, r`chunks
      ensures Coupled() && r.id in old(state).reqs && chunk.id in state.chunks
      ensures var q := old(state).reqs[r.id];
        state == Model.SetRequest(old(state), r.id, q.(accepted := q.accepted - {chunk.id}))
      ensures r.chunks == old(r.chunks) - {chunk}
    {
      hide RequestsMatch, RosterMatch, WaitersMatch, FreeMatch, OthersMatch, HoldingsMatch;
      Detach(known, made, state.reqs, r);
      ghost var q := state.reqs[r.id];
      HoldingsRemoved(made, r.chunks, q.accepted, chunk);
      r.chunks := r.chunks - {chunk};
      Attach(known, made, state.reqs, r, q.(accepted := q.accepted - {chunk.id}));
      state := Model.SetRequest(state, r.id, q.(accepted := q.accepted - {chunk.id}));
    }

    /** The pending lease leaves the request, and its notification with it. */
    method TakePending(r: Request) returns (lease: Lease)
      requires Coupled() && Owns(r) && r.pending.Some?
      modifies this`state, r`pending, r`notify
      ensures Coupled() && r.id in old(state).reqs
      ensures var q := old(state).reqs[r.id];
        && q.pending.Some? && lease == old(r.pending).value && LeaseMatches(made, lease, q.pending.value)
        && state == Model.SetRequest(old(state), r.id, q.(pending := None, notify := false))
    {
      hide RequestsMatch, RosterMatch, WaitersMatch, FreeMatch, OthersMatch, HoldingsMatch, ChunksMatch;
      Detach(known, made, state.reqs, r);
      ghost var q := state.reqs[r.id];
      lease := r.pending.value;
      r.pending := None;
      r.notify := false;
      Attach(known, made, state.reqs, r, q.(pending := None, notify := false));
      state := Model.SetRequest(state, r.id, q.(pending := None, notify := false));
    }

    method ReclaimPending(r: Request)
      requires Coupled() && Core(state) && Owns(r) && r.pending.Some?
      modifies this`ownedBytes, this`free, this`baseOnly, this`indebted, this`debtBytes, this`state
      modifies r`pending, r`notify, r`owned, r`debt, r.pending.value.chunk
      ensures Coupled() && r.id in old(state).reqs && PendingIn(old(state), r.id)
      ensures state == Model.ReclaimPending(old(state), r.id)
    {
      hide Coupled, Core;
      PendingLeaseIsGood(r);
      assert r.pending.value.requestID == r.id && r.pending.value.chunk.ownerID == r.id
        && r.pending.value.chunk.generation == r.pending.value.generation;
      var lease := TakePending(r);
      ReleaseOwnedChunk(r, lease.chunk);
    }

    /** Why the panic on an invalid pending lease cannot happen. */
    lemma PendingLeaseIsGood(r: Request)
      requires Coupled() && Core(state) && Owns(r) && r.pending.Some?
      ensures r.id in state.reqs && PendingIn(state, r.id)
      ensures var lease := r.pending.value;
        && lease.chunk != null && OwnsChunk(lease.chunk) && lease.requestID == r.id
        && lease.chunk.ownerID == r.id && lease.chunk.generation == lease.generation
        && lease.chunk.id == state.reqs[r.id].pending.value.chunk
    {
      hide Recount, Balanced, FreeList, Generations;
      RequestAt(known, made, state.reqs, r);
      var l := state.reqs[r.id].pending.value;
      assert Holds(state.reqs[r.id], l.chunk, l.generation);
    }
  
    // ---- targets --------------------------------------------------------------------------------

    method SetTarget(r: Request, target: int)
      requires Coupled() && Owns(r)
      modifies this`state, r`target, r`debt
      ensures Coupled() && r.id in old(state).reqs
      ensures state == Model.SetRequest(old(state), r.id, Model.WithTarget(old(state).reqs[r.id], target))
    {
      hide RequestsMatch, RosterMatch, WaitersMatch, FreeMatch, ChunksMatch, OthersMatch, HoldingsMatch;
      Detach(known, made, state.reqs, r);
      ghost var q := state.reqs[r.id];
      r.target := target;
      r.RecomputeDebt();
      Attach(known, made, state.reqs, r, Model.WithTarget(q, target));
      state := Model.SetRequest(state, r.id, Model.WithTarget(q, target));
    }

    method Retarget(r: Request, target: int)
      requires Coupled() && Owns(r)
      modifies this`baseOnly, this`indebted, this`debtBytes, this`state, r`target, r`debt
      ensures Coupled() && r.id in old(state).reqs
      ensures state == Model.Reaccount(old(state), r.id, Model.WithTarget(old(state).reqs[r.id], target))
    {
      hide Coupled;
      RemoveCounters(r);
      SetTarget(r, target);
      AddCounters(r);
    }

    lemma RequestListed(i: nat)
      requires Coupled() && i < |requests|
      ensures i < |state.requests| && Owns(requests[i]) && requests[i].id == state.requests[i]
    {
    }

    lemma SameLength()
      requires Coupled()
      ensures |requests| == |state.requests| && waiterCount == |state.waiters| && state.hardBudget == hardBudget
    {
    }

    method RecomputeTargets()
      requires Coupled() && Model.Registered(state)
      modifies this`baseOnly, this`indebted, this`debtBytes, this`state, set id | id in known :: known[id]
      ensures Coupled() && state == Model.RecomputeTargets(old(state))
    {
      hide Coupled, Model.Reaccount;
      SameLength();
      if |requests| == 0 {
        return;
      }
      var target := Model.Align(hardBudget / |requests|);
      if target > Model.REQUEST_CAP {
        target := Model.REQUEST_CAP;
      }
      for i := 0 to |requests|
        invariant Coupled() && i <= |old(state).requests| && state == Model.RetargetTo(old(state), target, i)
      {
        RequestListed(i);
        Retarget(requests[i], target);
      }
    }

    // ---- waiters --------------------------------------------------------------------------------

    /** Closes the gap that a waiter leaves in the list. */
    method DeleteWaiter(r: Request, ghost ids: seq<nat>)
      requires WaitersMatch(known, waiters, waiterCount, ids) && Owns(r) && r.id in ids
      requires forall x :: x in known && x != r.id ==> known[x] != r
      modifies this`waiterCount, waiters
      ensures WaitersMatch(known, waiters, waiterCount, Model.WithoutFirst(ids, r.id))
    {
      var index := 0;
      while index < waiterCount && waiters[index] != r
        invariant index <= waiterCount
        invariant forall i :: 0 <= i < index ==> waiters[i] != r
      {
        index := index + 1;
      }
      WaiterFound(known, waiters, waiterCount, ids, r, index);
      assert index < waiterCount;
      WithoutFirstAt(ids, r.id, index);
      for i := index to waiterCount - 1
        invariant waiterCount == |ids|
        invariant forall k :: 0 <= k < index ==> waiters[k] == known[ids[k]]
        invariant forall k :: index <= k < i ==> waiters[k] == known[ids[k + 1]]
        invariant forall k :: i < k < waiterCount ==> waiters[k] == known[ids[k]]
      {
        waiters[i] := waiters[i + 1];
      }
      waiters[waiterCount - 1] := null;
      waiterCount := waiterCount - 1;
    }

    method RemoveWaiter(r: Request)
      requires Coupled() && Owns(r) && r.id in state.waiters
      modifies this`waiterCount, this`state, waiters, r`waiting
      ensures Coupled() && r.id in old(state).reqs && state == Model.RemoveWaiter(old(state), r.id)
    {
      hide Coupled;
      UnlistWaiter(r);
      ClearWaiting(r);
    }

    method UnlistWaiter(r: Request)
      requires Coupled() && Owns(r) && r.id in state.waiters
      modifies this`waiterCount, this`state, waiters
      ensures Coupled() && r.id in state.reqs
      ensures state == old(state).(waiters := Model.WithoutFirst(old(state).waiters, r.id))
    {
      hide ChunksMatch, RequestsMatch, FreeMatch, RosterMatch, WaitersMatch, OthersMatch, HoldingsMatch, LeaseMatches;
      Detach(known, made, state.reqs, r);
      DeleteWaiter(r, state.waiters);
      state := state.(waiters := Model.WithoutFirst(state.waiters, r.id));
    }

    method ClearWaiting(r: Request)
      requires Coupled() && Owns(r)
      modifies this`state, r`waiting
      ensures Coupled() && r.id in old(state).reqs
      ensures state == Model.SetRequest(old(state), r.id, old(state).reqs[r.id].(waiting := false))
    {
      hide RequestsMatch, RosterMatch, WaitersMatch, FreeMatch, OthersMatch, HoldingsMatch, ChunksMatch;
      Detach(known, made, state.reqs, r);
      ghost var q := state.reqs[r.id].(waiting := false);
      r.waiting := false;
      Attach(known, made, state.reqs, r, q);
      state := Model.SetRequest(state, r.id, q);
    }

    // ---- grants ---------------------------------------------------------------------------------

    method CanGrant(r: Request) returns (ok: bool)
      requires Coupled() && Owns(r)
      ensures Coupled() && r.id in state.reqs && ok == Model.CanGrant(state, r.id)
    {
      hide RosterMatch, WaitersMatch, ChunksMatch, HoldingsMatch;
      RequestAt(known, made, state.reqs, r);
      if r.closed || !r.waiting || r.pending.Some? || r.debt != 0 {
        return false;
      }
      if r.owned + Model.CHUNK > r.target {
        return false;
      }
      return |free| > 0 || allocatedBytes + Model.CHUNK <= hardBudget;
    }

    lemma LastFree()
      requires Coupled() && |free| > 0
      ensures |state.free| == |free| && OwnsChunk(free[|free| - 1]) && free[|free| - 1].id == state.free[|free| - 1]
    {
    }

    /** The last free chunk, or a new one while the budget allows, or null. */
    method TakeChunk() returns (chunk: Chunk?)
      requires Coupled() && state.nextChunkID + 1 !in state.chunks
      modifies this`free, this`nextChunkID, this`allocatedBytes, this`state, this`made
      ensures Coupled() && state == Model.TakeChunk(old(state)).1
      ensures chunk == null <==> Model.TakeChunk(old(state)).0.None?
      ensures chunk != null ==> OwnsChunk(chunk) && Model.TakeChunk(old(state)).0 == Some(chunk.id)
      ensures MadeExtends(old(made), made)
      ensures made == old(made) || (chunk != null && fresh(chunk) && made == old(made)[chunk.id := chunk])
    {
      hide RosterMatch, WaitersMatch, RequestsMatch, ChunksMatch;
      if |free| > 0 {
        var count := |free|;
        chunk := free[count - 1];
        LastFree();
        free := free[..count - 1];
        state := state.(free := state.free[..count - 1]);
        return;
      }
      if allocatedBytes + Model.CHUNK > hardBudget {
        return null;
      }
      chunk := NewChunk();
    }

    method NewChunk() returns (chunk: Chunk)
      requires Coupled() && state.nextChunkID + 1 !in state.chunks
      modifies this`nextChunkID, this`allocatedBytes, this`state, this`made
      ensures Coupled() && fresh(chunk) && chunk.id == old(state).nextChunkID + 1
      ensures chunk.id !in old(made) && made == old(made)[chunk.id := chunk]
      ensures state == old(state).(nextChunkID := chunk.id, allocatedBytes := old(state).allocatedBytes + Model.CHUNK,
                                   chunks := old(state).chunks[chunk.id := Model.Chunk(0, 0)])
    {
      hide RosterMatch, WaitersMatch, RequestsMatch, ChunksMatch, FreeMatch;
      MadeAre(made, state.chunks);
      nextChunkID := nextChunkID + 1;
      chunk := new Chunk(nextChunkID);
      allocatedBytes := allocatedBytes + Model.CHUNK;
      MadeGrows(known, made, state.reqs, nextChunkID, chunk);
      ChunkMade(made, state.chunks, chunk);
      FreeSurvives(made, free, state.free, chunk);
      made := made[nextChunkID := chunk];
      state := state.(nextChunkID := nextChunkID, allocatedBytes := allocatedBytes,
                      chunks := state.chunks[nextChunkID := Model.Chunk(0, 0)]);
    }

    /** The lease becomes the request's pending grant. */
    method SetPending(r: Request, chunk: Chunk, generation: nat)
      requires Coupled() && Owns(r) && OwnsChunk(chunk)
      modifies this`state, r`waiting, r`pending
      ensures Coupled() && r.id in old(state).reqs
      ensures var q := old(state).reqs[r.id];
        state == Model.SetRequest(old(state), r.id,
                                  q.(waiting := false, pending := Some(Model.Lease(chunk.id, r.id, generation))))
    {
      hide RequestsMatch, RosterMatch, WaitersMatch, FreeMatch, OthersMatch, HoldingsMatch, ChunksMatch;
      Detach(known, made, state.reqs, r);
      ghost var q := state.reqs[r.id].(waiting := false, pending := Some(Model.Lease(chunk.id, r.id, generation)));
      r.waiting := false;
      r.pending := Some(Lease(chunk, r.id, generation));
      Attach(known, made, state.reqs, r, q);
      state := Model.SetRequest(state, r.id, q);
    }

    /** Fills the notification slot. */
    method Notify(r: Request)
      requires Coupled() && Owns(r)
      modifies this`state, r`notify
      ensures Coupled() && r.id in old(state).reqs
      ensures state == Model.SetRequest(old(state), r.id, old(state).reqs[r.id].(notify := true))
    {
      hide RequestsMatch, RosterMatch, WaitersMatch, FreeMatch, OthersMatch, HoldingsMatch, ChunksMatch;
      Detach(known, made, state.reqs, r);
      ghost var q := state.reqs[r.id].(notify := true);
      r.notify := true;
      Attach(known, made, state.reqs, r, q);
      state := Model.SetRequest(state, r.id, q);
    }

    method NextGeneration() returns (g: nat)
      requires Coupled()
      modifies this`nextGrant, this`state
      ensures Coupled() && g == old(state).nextGrant + 1 && state == old(state).(nextGrant := g)
    {
      hide RequestsMatch, RosterMatch, WaitersMatch, FreeMatch, ChunksMatch;
      nextGrant := nextGrant + 1;
      g := nextGrant;
      state := state.(nextGrant := g);
    }

    method AddOwned(delta: int)
      requires Coupled()
      modifies this`ownedBytes, this`state
      ensures Coupled() && state == old(state).(ownedBytes := old(state).ownedBytes + delta)
    {
      hide RequestsMatch, RosterMatch, WaitersMatch, FreeMatch, ChunksMatch;
      ownedBytes := ownedBytes + delta;
      state := state.(ownedBytes := ownedBytes);
    }

    lemma SlotIsEmpty(r: Request)
      requires Coupled() && Owns(r) && r.id in state.reqs && !state.reqs[r.id].notify
      ensures !r.notify
    {
      RequestAt(known, made, state.reqs, r);
    }

    /** Hands `chunk` to a waiter, in the order the scheduler does it. */
    method GrantChunk(r: Request, chunk: Chunk)
      requires Coupled() && Owns(r) && OwnsChunk(chunk) && r.id in state.reqs && !state.reqs[r.id].notify
      modifies this`nextGrant, this`ownedBytes, this`baseOnly, this`indebted, this`debtBytes, this`state
      modifies r`waiting, r`pending, r`owned, r`debt, r`notify, chunk`generation, chunk`ownerID
      ensures Coupled() && state == Model.Grant(old(state), r.id, chunk.id)
    {
      hide Coupled;
      var g := NextGeneration();
      Stamp(chunk, g, r.id);
      SetPending(r, chunk, g);
      AdjustOwned(r, Model.CHUNK);
      AddOwned(Model.CHUNK);
      SlotIsEmpty(r);
      assert !r.notify;
      Notify(r);
    }
  
    lemma ReadyToGrant(r: Request)
      requires Coupled() && Core(state) && Owns(r)
      ensures r.id in state.reqs && state.nextChunkID + 1 !in state.chunks
      ensures state.reqs[r.id].pending.None? ==> !state.reqs[r.id].notify
    {
      hide Recount, Balanced, FreeList, Ownership, Model.Distinct;
      RequestAt(known, made, state.reqs, r);
      assert RequestOk(r.id, state.reqs[r.id]);
    }

    /** Keeps a waiter in the list, inside the part of the array already read. */
    method KeepWaiter(r: Request)
      requires Coupled() && Owns(r) && waiterCount < waiters.Length
      modifies this`waiterCount, this`state, waiters
      ensures Coupled() && waiterCount == old(waiterCount) + 1
      ensures state == old(state).(waiters := old(state).waiters + [r.id])
      ensures forall i :: old(waiterCount) < i < waiters.Length ==> waiters[i] == old(waiters[i])
    {
      hide ChunksMatch, RequestsMatch, FreeMatch, RosterMatch;
      waiters[waiterCount] := r;
      waiterCount := waiterCount + 1;
      state := state.(waiters := state.waiters + [r.id]);
    }

    /** One step of the scheduling pass: `r` stays in the list or gets a chunk. */
    method ScheduleOne(r: Request)
      requires Coupled() && Core(state) && Owns(r) && waiterCount < waiters.Length
      modifies this`allocatedBytes, this`ownedBytes, this`free, this`waiterCount, this`nextChunkID, this`nextGrant
      modifies this`baseOnly, this`indebted, this`debtBytes, this`state, this`made
      modifies waiters, r, set c | c in made :: made[c]
      ensures Coupled() && r.id in old(state).reqs && state == Model.ScheduleOne(old(state), r.id)
      ensures old(waiterCount) <= waiterCount <= old(waiterCount) + 1
      ensures forall i :: old(waiterCount) < i < waiters.Length ==> waiters[i] == old(waiters[i])
      ensures MadeExtends(old(made), made) && forall c :: c in made && c !in old(made) ==> fresh(made[c])
    {
      hide Coupled, Core, Model.CanGrant, Model.TakeChunk, Model.Grant;
      ReadyToGrant(r);
      var ok := CanGrant(r);
      if !ok {
        KeepWaiter(r);
        return;
      }
      var chunk := TakeChunk();
      if chunk == null {
        KeepWaiter(r);
        return;
      }
      TakeKeepsRequests(old(state));
      GrantableHasNoPending(old(state), r.id);
      GrantChunk(r, chunk);
    }
  
    /** The ids behind the part of the list that a pass has not read yet. */
    ghost predicate Unread(ids: seq<nat>, i: nat)
      reads this, waiters
    {
      |ids| <= waiters.Length && forall j :: i <= j < |ids| ==> ids[j] in known && waiters[j] == known[ids[j]]
    }

    method StartPass() returns (n: nat)
      requires Coupled()
      modifies this`waiterCount, this`state
      ensures Coupled() && waiterCount == 0 && n == |old(state).waiters| && n <= waiters.Length
      ensures Unread(old(state).waiters, 0) && state == old(state).(waiters := [])
    {
      hide ChunksMatch, RequestsMatch, FreeMatch, RosterMatch;
      n := waiterCount;
      waiterCount := 0;
      state := state.(waiters := []);
    }

    lemma UnreadIs(ids: seq<nat>, i: nat)
      requires Coupled() && Unread(ids, i) && i < |ids|
      ensures i < waiters.Length && waiters[i] != null && Owns(waiters[i]) && waiters[i].id == ids[i]
    {
    }

    /** Reads one entry of the list and decides it. */
    method Examine(ghost ids: seq<nat>, i: nat)
      requires Coupled() && Core(state) && i < |ids| && Unread(ids, i) && waiterCount <= i
      modifies this`allocatedBytes, this`ownedBytes, this`free, this`waiterCount, this`nextChunkID, this`nextGrant
      modifies this`baseOnly, this`indebted, this`debtBytes, this`state, this`made
      modifies waiters, set id | id in known :: known[id], set c | c in made :: made[c]
      ensures Coupled() && ids[i] in old(state).reqs && state == Model.ScheduleOne(old(state), ids[i])
      ensures waiterCount <= i + 1 && Unread(ids, i + 1)
      ensures MadeExtends(old(made), made) && forall c :: c in made && c !in old(made) ==> fresh(made[c])
    {
      hide Coupled, Core, Model.ScheduleOne;
      UnreadIs(ids, i);
      ScheduleOne(waiters[i]);
    }

    lemma PassIsCore(s: Model.Pool, i: nat)
      requires Core(s) && WaitersAre(s, s.waiters) && i <= |s.waiters|
      ensures Core(Model.ScheduleTo(s, i))
    {
      hide Core;
      SchedulePass(s, i);
    }

    /** The scheduling pass. The list is rewritten in place: what stays moves to the front. */
    method Schedule()
      requires Coupled() && Core(state) && WaitersAre(state, state.waiters)
      modifies this`allocatedBytes, this`ownedBytes, this`free, this`waiterCount, this`nextChunkID, this`nextGrant
      modifies this`baseOnly, this`indebted, this`debtBytes, this`state, this`made
      modifies waiters, set id | id in known :: known[id], set c | c in made :: made[c]
      ensures Coupled() && Model.WaitersKnown(old(state)) && state == Model.Schedule(old(state))
      ensures MadeExtends(old(made), made) && forall c :: c in made && c !in old(made) ==> fresh(made[c])
    {
      hide Coupled, Core, WaitersAre, Unread, MadeExtends, Model.ScheduleTo;
      ghost var s := state;
      PassStarts(s);
      var n := StartPass();
      ExamineAll(s, n);
      ClearTail(n);
    }

    /** Reads the list from front to back. */
    method ExamineAll(ghost s: Model.Pool, n: nat)
      requires Core(s) && WaitersAre(s, s.waiters) && n == |s.waiters|
      requires Coupled() && waiterCount == 0 && Unread(s.waiters, 0) && state == Model.ScheduleTo(s, 0)
      modifies this`allocatedBytes, this`ownedBytes, this`free, this`waiterCount, this`nextChunkID, this`nextGrant
      modifies this`baseOnly, this`indebted, this`debtBytes, this`state, this`made
      modifies waiters, set id | id in known :: known[id], set c | c in made :: made[c]
      ensures Coupled() && state == Model.ScheduleTo(s, n) && waiterCount <= n
      ensures MadeExtends(old(made), made) && forall c :: c in made && c !in old(made) ==> fresh(made[c])
    {
      hide Coupled, Core, Model.ScheduleOne, Unread;
      for i := 0 to n
        invariant Coupled() && i <= |s.waiters| && state == Model.ScheduleTo(s, i) && waiterCount <= i
        invariant Unread(s.waiters, i)
        invariant MadeExtends(old(made), made) && forall c :: c in made && c !in old(made) ==> fresh(made[c])
      {
        PassIsCore(s, i);
        Examine(s.waiters, i);
      }
    }

    method ClearTail(n: nat)
      requires Coupled() && waiterCount <= n <= waiters.Length
      modifies waiters
      ensures Coupled()
    {
      hide ChunksMatch, RequestsMatch, FreeMatch, RosterMatch;
      for index := waiterCount to n
        invariant WaitersMatch(known, waiters, waiterCount, state.waiters)
      {
        waiters[index] := null;
      }
    }
  
    // ---- the public operations ------------------------------------------------------------------

    constructor (hardBudget: int)
      requires Model.ValidBudget(hardBudget)
      ensures Valid() && fresh(Repr()) && state == Model.InitialPool(hardBudget) && known == map[] && made == map[]
    {
      InitialPoolInv(hardBudget);
      this.hardBudget := hardBudget;
      allocatedBytes, ownedBytes := 0, 0;
      free, requests := [], [];
      waiters := new Request?[0];
      waiterCount := 0;
      nextRequestID, nextChunkID, nextGrant := 0, 0, 0;
      baseOnly, indebted, debtBytes := 0, 0, 0;
      state := Model.InitialPool(hardBudget);
      known, made := map[], map[];
    }

    /** What the accounting assertion at the end of each operation demands always holds. */
    lemma AccountingHolds()
      requires Valid()
      ensures |free| <= hardBudget / 32768
      ensures hardBudget >= Model.CHUNK && hardBudget % 32768 == 0
      ensures 0 <= allocatedBytes <= hardBudget && allocatedBytes % 32768 == 0
      ensures 0 <= ownedBytes <= allocatedBytes && ownedBytes % 32768 == 0
      ensures allocatedBytes == ownedBytes + |free| * 32768
      ensures waiterCount <= |requests|
    {
      hide RequestsMatch, ChunksMatch, FreeList, Generations, Ownership, WorkConserving, Targets, Open;
      OpenRegistry(state);
      OwnedIsNonnegative(state);
      WaitersWithinRequests(state.waiters, state.requests, state);
    }

    lemma AtRest()
      requires Valid()
      ensures Coupled() && Inv(state) && Core(state) && WaitersAre(state, state.waiters)
      ensures Model.Registered(state) && Model.WaitersKnown(state)
    {
      hide Coupled;
      OpenRegistry(state);
    }

    method MarkWaiting(r: Request)
      requires Coupled() && Owns(r)
      modifies this`state, r`waiting
      ensures Coupled() && r.id in old(state).reqs
      ensures state == Model.SetRequest(old(state), r.id, old(state).reqs[r.id].(waiting := true))
    {
      hide RequestsMatch, RosterMatch, WaitersMatch, FreeMatch, OthersMatch, HoldingsMatch, ChunksMatch;
      Detach(known, made, state.reqs, r);
      ghost var q := state.reqs[r.id].(waiting := true);
      r.waiting := true;
      Attach(known, made, state.reqs, r, q);
      state := Model.SetRequest(state, r.id, q);
    }

    /** Room for one more waiter: a full backing array is copied to a larger one. */
    method GrowWaiters()
      requires Coupled()
      modifies this`waiters
      ensures Coupled() && waiterCount < waiters.Length && (waiters == old(waiters) || fresh(waiters))
    {
      hide RequestsMatch, FreeMatch, RosterMatch, ChunksMatch;
      if waiterCount == waiters.Length {
        var from := waiters;
        var grown := new Request?[2 * from.Length + 1](_ => null);
        for i := 0 to waiterCount
          invariant forall k :: 0 <= k < i ==> grown[k] == from[k]
          invariant waiters == from && WaitersMatch(known, from, waiterCount, state.waiters)
        {
          grown[i] := from[i];
        }
        waiters := grown;
      }
    }

    method JoinWaiters(r: Request)
      requires Coupled() && Owns(r)
      modifies this`waiters, this`waiterCount, this`state, waiters, r`waiting
      ensures Coupled() && r.id in old(state).reqs && (waiters == old(waiters) || fresh(waiters))
      ensures state == Joined(old(state), r.id)
    {
      hide Coupled;
      MarkWaiting(r);
      GrowWaiters();
      KeepWaiter(r);
    }
  
    /** New targets, then a scheduling pass. */
    method Rebalance()
      requires Coupled() && Core(state) && WaitersAre(state, state.waiters) && Open(state)
      modifies this`allocatedBytes, this`ownedBytes, this`free, this`waiterCount, this`nextChunkID, this`nextGrant
      modifies this`baseOnly, this`indebted, this`debtBytes, this`state, this`made
      modifies waiters, set id | id in known :: known[id], set c | c in made :: made[c]
      ensures Coupled() && Model.Registered(old(state)) && Model.WaitersKnown(old(state))
      ensures state == Model.Schedule(Model.RecomputeTargets(old(state)))
      ensures MadeExtends(old(made), made) && forall c :: c in made && c !in old(made) ==> fresh(made[c])
    {
      hide Coupled, Core, WaitersAre, Open, Targets, Model.Schedule, Model.RecomputeTargets;
      KnownPool(state);
      RecomputeKeeps(state);
      RecomputeTargets();
      Schedule();
    }

    /** Registers a request; targets shrink at once and the pool is rebalanced. */
    method Register() returns (r: Request)
      requires Valid()
      modifies Repr()
      ensures Valid() && fresh(r) && Owns(r) && r.id == state.nextRequestID
      ensures Model.Registered(old(state)) && Model.WaitersKnown(old(state)) && state == Model.Register(old(state))
      ensures fresh(Repr() - old(Repr()))
    {
      hide Coupled, Steady, Enrolled, Core, WaitersAre, Open, Model.Register, Model.Schedule, Model.RecomputeTargets,
          ViewsAdvance;
      RegisterSettles(state);
      EnrollReady(state);
      r := Enroll();
      Rebalance();
    }

    lemma EnrollReady(s: Model.Pool)
      requires Steady(s)
      ensures s.nextRequestID + 1 !in s.reqs
      ensures Core(Enrolled(s)) && WaitersAre(Enrolled(s), Enrolled(s).waiters) && Open(Enrolled(s))
      ensures Model.Registered(s) && Model.WaitersKnown(s)
      ensures Model.Registered(Enrolled(s)) && Model.WaitersKnown(Enrolled(s))
      ensures Model.Register(s) == Model.Schedule(Model.RecomputeTargets(Enrolled(s)))
    {
      hide Core, WaitersAre, Open;
      EnrollKeepsCore(s);
      EnrolledIs(s);
    }

    /** Creates the request object and lists it. */
    method Enroll() returns (r: Request)
      requires Coupled() && state.nextRequestID + 1 !in state.reqs
      modifies this`nextRequestID, this`requests, this`known, this`baseOnly, this`indebted, this`debtBytes, this`state
      ensures Coupled() && fresh(r) && Owns(r) && r.id == old(state).nextRequestID + 1
      ensures known == old(known)[r.id := r] && state == Enrolled(old(state))
    {
      hide Coupled, Model.AddCounters;
      r := NewRequest();
      AddCounters(r);
    }

    method NewRequest() returns (r: Request)
      requires Coupled() && state.nextRequestID + 1 !in state.reqs
      modifies this`nextRequestID, this`requests, this`known, this`state
      ensures Coupled() && fresh(r) && Owns(r) && r.id == old(state).nextRequestID + 1
      ensures known == old(known)[r.id := r]
      ensures state == Model.SetRequest(
        old(state).(nextRequestID := r.id, requests := old(state).requests + [r.id]), r.id, Model.NEW_REQUEST)
    {
      hide ChunksMatch, FreeMatch, RequestsMatch, RosterMatch, WaitersMatch;
      KnownAre(known, made, state.reqs);
      nextRequestID := nextRequestID + 1;
      r := new Request(nextRequestID);
      requests := requests + [r];
      RosterGrows(known, requests[..|requests| - 1], state.requests, r);
      WaitersSurvive(known, waiters, waiterCount, state.waiters, r);
      KnownGrows(known, made, state.reqs, r);
      known := known[r.id := r];
      state := Model.SetRequest(state.(nextRequestID := nextRequestID, requests := state.requests + [r.id]), r.id, Model.NEW_REQUEST);
    }
  
    /** The flags of an owned request are those of its record. */
    lemma FlagsOf(r: Request)
      requires Coupled() && Owns(r)
      ensures r.id in state.reqs
      ensures var q := state.reqs[r.id];
        && r.closed == q.closed && r.waiting == q.waiting && r.notify == q.notify
        && (r.pending.None? <==> q.pending.None?)
    {
      RequestAt(known, made, state.reqs, r);
    }

    method ScheduleJoined(r: Request)
      requires Coupled() && Owns(r) && r.id in state.reqs && ReadyToJoin(state, r.id)
      modifies Repr(), this`waiters
      ensures Coupled() && known == old(known) && fresh(Repr() - old(Repr())) && r.id in old(state).reqs
      ensures Model.WaitersKnown(Joined(old(state), r.id)) && state == Model.Schedule(Joined(old(state), r.id))
    {
      hide Coupled, Core, WaitersAre, Model.Schedule, Model.WaitersKnown;
      JoinWaiters(r);
      Schedule();
    }

    /** Lists the request as a waiter and runs a scheduling pass. */
    method JoinAndSchedule(r: Request)
      requires Coupled() && Inv(state) && Owns(r) && r.id in state.reqs && !r.closed && !r.waiting && r.pending.None?
      modifies Repr(), this`waiters
      ensures Coupled() && known == old(known) && r.id in old(state).reqs && fresh(Repr() - old(Repr()))
      ensures Model.WaitersKnown(Joined(old(state), r.id)) && state == Model.Schedule(Joined(old(state), r.id))
    {
      hide Coupled, Inv, Core, WaitersAre, Model.Schedule, Repr;
      FlagsOf(r);
      JoinReady(state, r.id);
      ScheduleJoined(r);
    }

    /** Asks for one more chunk. */
    method RequestOptional(r: Request) returns (error: Option<Model.Error>)
      requires Valid() && Owns(r)
      modifies Repr(), this`waiters
      ensures Valid() && known == old(known) && fresh(Repr() - old(Repr()))
      ensures Model.WaitersKnown(old(state)) && r.id in old(state).reqs
      ensures state == Model.RequestOptional(old(state), r.id).0
      ensures Model.RequestOptional(old(state), r.id).1 == if error.None? then Model.Done else Model.Failed(error.value)
    {
      hide Coupled, Sound, Open, WorkConserving, Model.Schedule, Repr;
      FlagsOf(r);
      RequestIsSteady(state, r.id);
      if r.closed {
        return Some(Model.ErrClosed);
      }
      if r.pending.Some? || r.waiting {
        return None;
      }
      JoinAndSchedule(r);
      return None;
    }

    /** A receive from the notification channel: true when a value was there. */
    method ReceiveNotification(r: Request) returns (received: bool)
      requires Valid() && Owns(r)
      modifies this`state, r`notify
      ensures Valid() && known == old(known)
      ensures r.id in old(state).reqs && received == old(state).reqs[r.id].notify
      ensures state == Model.ReceiveNotification(old(state), r.id)
    {
      hide Coupled, Steady;
      FlagsOf(r);
      ReceiveIsSteady(state, r.id);
      received := r.notify;
      DrainNotification(r);
    }

    method DrainNotification(r: Request)
      requires Coupled() && Owns(r)
      modifies this`state, r`notify
      ensures Coupled() && r.id in old(state).reqs
      ensures state == Model.SetRequest(old(state), r.id, old(state).reqs[r.id].(notify := false))
    {
      hide RequestsMatch, RosterMatch, WaitersMatch, FreeMatch, OthersMatch, HoldingsMatch, ChunksMatch;
      Detach(known, made, state.reqs, r);
      ghost var q := state.reqs[r.id].(notify := false);
      r.notify := false;
      Attach(known, made, state.reqs, r, q);
      state := Model.SetRequest(state, r.id, q);
    }

    method AddAccepted(r: Request, lease: Lease, ghost l: Model.Lease)
      requires Coupled() && Owns(r) && LeaseMatches(made, lease, l)
      modifies this`state, r`chunks
      ensures Coupled() && r.id in old(state).reqs
      ensures var q := old(state).reqs[r.id];
        state == Model.SetRequest(old(state), r.id, q.(accepted := q.accepted[l.chunk := l.generation]))
    {
      hide RequestsMatch, RosterMatch, WaitersMatch, FreeMatch, OthersMatch, HoldingsMatch;
      Detach(known, made, state.reqs, r);
      ghost var q := state.reqs[r.id];
      HoldingsAdded(made, r.chunks, q.accepted, lease.chunk, lease.generation);
      r.chunks := r.chunks[lease.chunk := lease.generation];
      Attach(known, made, state.reqs, r, q.(accepted := q.accepted[l.chunk := l.generation]));
      state := Model.SetRequest(state, r.id, q.(accepted := q.accepted[l.chunk := l.generation]));
    }

    /** Moves the pending lease into the request's chunk set. */
    method TakeLease(r: Request) returns (lease: Lease)
      requires Coupled() && Owns(r) && r.pending.Some?
      modifies this`state, r`pending, r`notify, r`chunks
      ensures Coupled() && r.id in old(state).reqs && old(state).reqs[r.id].pending.Some?
      ensures LeaseMatches(made, lease, old(state).reqs[r.id].pending.value)
      ensures var q := old(state).reqs[r.id];
        state.reqs == old(state).reqs[r.id := WithLease(q, q.pending.value)] && state == old(state).(reqs := state.reqs)
    {
      hide Coupled, LeaseMatches;
      FlagsOf(r);
      ghost var l := state.reqs[r.id].pending.value;
      lease := TakePending(r);
      AddAccepted(r, lease, l);
    }

    /** Takes the pending grant. */
    method AcceptOptional(r: Request) returns (lease: Lease, error: Option<Model.Error>)
      requires Valid() && Owns(r)
      modifies this`state, r`pending, r`notify, r`chunks
      ensures Valid() && known == old(known) && made == old(made)
      ensures r.id in old(state).reqs && state == Model.AcceptOptional(old(state), r.id).0
      ensures match Model.AcceptOptional(old(state), r.id).1
        case Accepted(l) => error.None? && LeaseMatches(made, lease, l)
        case Failed(e) => error == Some(e) && lease == Lease(null, 0, 0)
        case Done => false
    {
      hide Coupled, Steady, LeaseMatches;
      FlagsOf(r);
      AcceptIsSteady(state, r.id);
      if r.closed {
        return Lease(null, 0, 0), Some(Model.ErrClosed);
      }
      if r.pending.None? {
        return Lease(null, 0, 0), Some(Model.ErrNoGrant);
      }
      lease := TakeLease(r);
      error := None;
    }

    /** Returns the pending chunk, then lets the scheduler pass it on. */
    method ReclaimAndSchedule(r: Request)
      requires Coupled() && Inv(state) && Owns(r) && r.id in state.reqs && !r.closed && r.pending.Some?
      modifies Repr()
      ensures Coupled() && known == old(known) && fresh(Repr() - old(Repr()))
      ensures r.id in old(state).reqs && PendingIn(old(state), r.id)
      ensures var q := Model.ReclaimPending(old(state), r.id); Model.WaitersKnown(q) && state == Model.Schedule(q)
    {
      hide Coupled, Inv, Core, WaitersAre, PendingIn, Model.Schedule, Model.ReclaimPending;
      FlagsOf(r);
      ReclaimReady(state, r.id);
      PendingLeaseIsGood(r);
      ReclaimPending(r);
      Schedule();
    }

    /** Gives up asking: a pending grant goes back, or the request leaves the waiter list. */
    method CancelOptional(r: Request) returns (error: Option<Model.Error>)
      requires Valid() && Owns(r)
      modifies Repr()
      ensures Valid() && known == old(known) && fresh(Repr() - old(Repr()))
      ensures Model.WaitersKnown(old(state)) && r.id in old(state).reqs && Model.PendingKnown(old(state), r.id)
      ensures state == Model.CancelOptional(old(state), r.id).0
      ensures Model.CancelOptional(old(state), r.id).1 == if error.None? then Model.Done else Model.Failed(error.value)
    {
      hide Coupled, Sound, Open, WorkConserving, Model.Schedule, Model.ReclaimPending, Model.RemoveWaiter;
      FlagsOf(r);
      CancelIsSteady(state, r.id);
      if r.closed {
        return Some(Model.ErrClosed);
      }
      if r.pending.Some? {
        ReclaimAndSchedule(r);
      } else if r.waiting {
        WaitingIsListed(state, r.id);
        RemoveWaiter(r);
      }
      return None;
    }
  
    /** The chunk id a lease names; 0 for a nil chunk or one this buffer did not make. */
    ghost function ChunkOf(lease: Lease): nat
      reads this
    {
      if lease.chunk != null && lease.chunk.id in made && made[lease.chunk.id] == lease.chunk then lease.chunk.id else 0
    }

    ghost function Named(lease: Lease): Model.Lease
      reads this
    {
      Model.Lease(ChunkOf(lease), lease.requestID, lease.generation)
    }

    /** What the record says of a lease, in terms of the objects. */
    lemma AskedLease(r: Request, lease: Lease)
      requires Coupled() && Core(state) && Owns(r)
      ensures r.id in state.reqs
      ensures Model.ValidLease(state, r.id, Named(lease)) <==>
        && lease.chunk != null && lease.requestID == r.id
        && lease.chunk.ownerID == r.id && lease.chunk.generation == lease.generation
        && lease.chunk in r.chunks && r.chunks[lease.chunk] == lease.generation
    {
      hide CountersMatch, RequestsMatch, Core, FreeMatch, RosterMatch, WaitersMatch;
      RequestAt(known, made, state.reqs, r);
      NoChunkZero(state);
    }

    /** The lease is accepted by `r`, under the generation its chunk still carries. */
    method ValidAcceptedLease(r: Request, lease: Lease) returns (ok: bool)
      requires Coupled() && Core(state) && Owns(r)
      ensures Coupled() && r.id in state.reqs && ok == Model.ValidLease(state, r.id, Named(lease))
      ensures ok ==> lease.chunk != null && OwnsChunk(lease.chunk)
    {
      hide Coupled, Core;
      FlagsOf(r);
      HoldingsOf(r);
      AskedLease(r, lease);
      if lease.chunk == null || lease.requestID != r.id
         || lease.chunk.ownerID != r.id || lease.chunk.generation != lease.generation {
        return false;
      }
      return lease.chunk in r.chunks && r.chunks[lease.chunk] == lease.generation;
    }

    /** Returns an accepted chunk, then lets the scheduler pass it on. */
    method ReleaseAndSchedule(r: Request, chunk: Chunk)
      requires Coupled() && Inv(state) && Owns(r) && OwnsChunk(chunk) && r.id in state.reqs
      requires !state.reqs[r.id].closed && chunk.id in state.reqs[r.id].accepted
      modifies Repr()
      ensures Coupled() && known == old(known) && fresh(Repr() - old(Repr()))
      ensures r.id in old(state).reqs && chunk.id in old(state).chunks
      ensures var q := Model.ReleaseAccepted(old(state), r.id, chunk.id); Model.WaitersKnown(q) && state == Model.Schedule(q)
    {
      hide Coupled, Inv, Core, WaitersAre, Model.Schedule, Model.ReleaseAccepted;
      ReleaseReady(state, r.id, chunk.id);
      ReleaseAccepted(r, chunk);
      Schedule();
    }

    /** Returns an accepted chunk. A lease that is not the request's own, or no longer, is refused. */
    method ReleaseOptional(r: Request, lease: Lease) returns (error: Option<Model.Error>)
      requires Valid() && Owns(r)
      modifies Repr()
      ensures Valid() && known == old(known) && fresh(Repr() - old(Repr()))
      ensures Model.WaitersKnown(old(state)) && r.id in old(state).reqs
      ensures state == Model.ReleaseOptional(old(state), r.id, old(Named(lease))).0
      ensures Model.ReleaseOptional(old(state), r.id, old(Named(lease))).1
           == if error.None? then Model.Done else Model.Failed(error.value)
    {
      hide Coupled, Sound, Open, WorkConserving, Model.Schedule, Model.ReleaseAccepted;
      FlagsOf(r);
      CoreOf(state);
      ReleaseIsSteady(state, r.id, Named(lease));
      if r.closed {
        return Some(Model.ErrClosed);
      }
      var ok := ValidAcceptedLease(r, lease);
      if !ok {
        return Some(Model.ErrOwnership);
      }
      ReleaseAndSchedule(r, lease.chunk);
      return None;
    }

    // ---- closing --------------------------------------------------------------------------------

    method MarkClosed(r: Request)
      requires Coupled() && Owns(r)
      modifies this`state, r`closed
      ensures Coupled() && r.id in old(state).reqs
      ensures state == Model.SetRequest(old(state), r.id, old(state).reqs[r.id].(closed := true))
    {
      hide RequestsMatch, RosterMatch, WaitersMatch, FreeMatch, OthersMatch, HoldingsMatch, ChunksMatch;
      Detach(known, made, state.reqs, r);
      ghost var q := state.reqs[r.id].(closed := true);
      r.closed := true;
      Attach(known, made, state.reqs, r, q);
      state := Model.SetRequest(state, r.id, q);
    }

    method LeaveWaiters(r: Request)
      requires Coupled() && Sound(state) && Owns(r) && r.id in state.requests
      modifies this`waiterCount, this`state, waiters, r`waiting
      ensures Coupled() && r.id in old(state).reqs && state == Model.Unlist(old(state), r.id)
    {
      hide Coupled, Core, Targets;
      FlagsOf(r);
      if r.waiting {
        RemoveWaiter(r);
      }
    }

    method GiveUpPending(r: Request)
      requires Coupled() && Sound(state) && Owns(r) && r.id in state.requests
      modifies this`ownedBytes, this`free, this`baseOnly, this`indebted, this`debtBytes, this`state
      modifies r`pending, r`notify, r`owned, r`debt, set c | c in made :: made[c]
      ensures Coupled() && r.id in old(state).reqs && Model.PendingKnown(old(state), r.id)
      ensures state == Model.Unpend(old(state), r.id)
    {
      hide Coupled, Core, Targets, WaitersAre, Model.ReclaimPending;
      FlagsOf(r);
      SoundKnowsPending(state, r.id);
      if r.pending.Some? {
        PendingLeaseIsGood(r);
        ReclaimPending(r);
      } else {
        DrainNotification(r);
      }
    }

    /** Which chunks the object holds, and which its record holds. */
    lemma HoldingsOf(r: Request)
      requires Coupled() && Owns(r)
      ensures r.id in state.reqs
      ensures forall ch :: ch in r.chunks ==> OwnsChunk(ch) && ch.id in state.reqs[r.id].accepted
      ensures r.chunks == map[] ==> state.reqs[r.id].accepted == map[]
    {
      hide ChunksMatch, RosterMatch, WaitersMatch, FreeMatch;
      RequestAt(known, made, state.reqs, r);
    }

    /** Returns every accepted chunk, in whatever order the map gives them. */
    method ReleaseChunks(r: Request) returns (ghost order: seq<nat>)
      requires Coupled() && Sound(state) && Owns(r) && r.id in state.reqs && r.id in state.requests
      modifies this`ownedBytes, this`free, this`baseOnly, this`indebted, this`debtBytes, this`state
      modifies r`chunks, r`owned, r`debt, set c | c in made :: made[c]
      ensures Coupled() && Model.ValidOrder(old(state), r.id, order)
      ensures forall c :: c in order ==> c in old(state).chunks
      ensures state == Model.ReleaseAll(old(state), r.id, order)
    {
      hide Coupled, Sound, Model.ReleaseAccepted, Model.ReleaseAll, Model.Distinct;
      ghost var s := state;
      order := [];
      HoldingsOf(r);
      ReleaseNone(s, r.id);
      while r.chunks != map[]
        invariant Coupled() && r.id in s.reqs
        invariant forall c :: c in order ==> c in s.chunks && c in s.reqs[r.id].accepted
        invariant Model.Distinct(order) && state == Model.ReleaseAll(s, r.id, order)
        decreases |r.chunks|
      {
        HoldingsOf(r);
        ReleaseAllKeeps(s, r.id, order);
        ChunksLeft(r);
        var chunk: Chunk :| chunk in r.chunks;
        assert chunk.id in s.reqs[r.id].accepted && chunk.id !in order;
        OrderKnown(s, r.id, [chunk.id]);
        assert chunk.id in [chunk.id];
        ReleaseNext(s, r.id, order, chunk.id);
        FewerChunks(r.chunks, chunk);
        ReleaseAccepted(r, chunk);
        order := order + [chunk.id];
      }
      HoldingsOf(r);
      ReleaseAllKeeps(s, r.id, order);
      AllReleased(s, r.id, order);
    }

    lemma ChunksLeft(r: Request)
      requires r.chunks != map[]
      ensures exists chunk: Chunk :: chunk in r.chunks
    {
      assert exists chunk :: chunk in r.chunks;
    }

    /** Everything a close does before the request leaves the registry. */
    method Vacate(r: Request) returns (ghost order: seq<nat>)
      requires Coupled() && Inv(state) && Owns(r) && r.id in state.requests
      modifies this`ownedBytes, this`free, this`baseOnly, this`indebted, this`debtBytes, this`state, this`waiterCount
      modifies waiters, r, set c | c in made :: made[c]
      ensures Coupled() && r.id in old(state).reqs && Model.ValidOrder(old(state), r.id, order)
      ensures Model.PendingKnown(old(state), r.id) && forall c :: c in order ==> c in old(state).chunks
      ensures state == Model.Vacate(old(state), r.id, order)
    {
      hide Coupled, Sound, Model.Unlist, Model.Unpend, Model.ReleaseAll, OnlyRequest;
      FlagsOf(r);
      ghost var s := state;
      SoundKnowsPending(s, r.id);
      CloseFlagKeepsSound(s, r.id);
      MarkClosed(r);
      UnlistKeepsSound(state, r.id);
      Registry(s, state, r.id);
      ghost var p := state;
      LeaveWaiters(r);
      Registry(p, state, r.id);
      ghost var q := state;
      UnpendKeepsSound(q, r.id);
      GiveUpPending(r);
      Registry(q, state, r.id);
      order := ReleaseChunks(r);
    }

    lemma RosterOf(r: Request)
      requires Coupled() && Owns(r)
      ensures |requests| == |state.requests|
      ensures forall i :: 0 <= i < |requests| ==> (requests[i] == r <==> state.requests[i] == r.id)
    {
      KnownAre(known, made, state.reqs);
      assert forall x :: x in known ==> known[x].id == x;
    }

    /** Drops the closing request from the registry. */
    method Depart(r: Request)
      requires Coupled() && Owns(r) && r.id in state.requests
      modifies this`requests, this`baseOnly, this`indebted, this`debtBytes, this`state
      ensures Coupled() && r.id in old(state).reqs && state == Model.WithoutRequest(old(state), r.id)
    {
      hide Coupled;
      RemoveCounters(r);
      RosterOf(r);
      var index := 0;
      while index < |requests| && requests[index] != r
        invariant index <= |requests| && r.id !in state.requests[..index]
      {
        assert state.requests[..index + 1] == state.requests[..index] + [state.requests[index]];
        index := index + 1;
      }
      assert state.requests[..|requests|] == state.requests;
      assert index < |requests|;
      WithoutFirstAt(state.requests, r.id, index);
      DropListed(index);
    }

    method DropListed(index: nat)
      requires Coupled() && index < |requests| && |requests| == |state.requests|
      modifies this`requests, this`state
      ensures Coupled()
      ensures state == old(state).(requests := old(state).requests[..index] + old(state).requests[index + 1..])
    {
      hide ChunksMatch, RequestsMatch, FreeMatch, WaitersMatch;
      requests := requests[..index] + requests[index + 1..];
      state := state.(requests := state.requests[..index] + state.requests[index + 1..]);
    }

    /** The request leaves the registry, targets grow, and the others are served. */
    method DepartAndRebalance(r: Request)
      requires Coupled() && Vacated(state, r.id) && Owns(r)
      modifies Repr()
      ensures Coupled() && known == old(known) && fresh(Repr() - old(Repr())) && r.id in old(state).reqs
      ensures var q := Model.WithoutRequest(old(state), r.id);
        && Model.Registered(q) && Model.WaitersKnown(q)
        && state == Model.Schedule(Model.RecomputeTargets(q))
    {
      hide Coupled, Core, WaitersAre, Open, Sound, Model.Schedule, Model.RecomputeTargets, Model.WithoutRequest;
      DepartKeepsCore(state, r.id);
      Depart(r);
      Rebalance();
    }

    method VacateAndDepart(r: Request) returns (ghost order: seq<nat>)
      requires Coupled() && Steady(state) && Owns(r) && r.id in state.reqs && !state.reqs[r.id].closed
      modifies Repr()
      ensures Coupled() && known == old(known) && fresh(Repr() - old(Repr()))
      ensures Model.Registered(old(state)) && Model.WaitersKnown(old(state))
      ensures r.id in old(state).reqs && Model.PendingKnown(old(state), r.id) && Model.ValidOrder(old(state), r.id, order)
      ensures forall c :: c in order ==> c in old(state).chunks
      ensures state == Model.Close(old(state), r.id, order)
    {
      hide Coupled, Inv, WorkConserving, Vacated, OnlyRequest, ViewsExcept, Blank, RequestOk;
      hide Model.Schedule, Model.Vacate, Model.WithoutRequest, Model.RecomputeTargets, Model.ValidOrder,
          Model.PendingKnown;
      OpenRegistry(state);
      ClosedIsUnregistered(state, r.id);
      ghost var s := state;
      order := Vacate(r);
      CloseIsSteady(s, r.id, order);
      DepartAndRebalance(r);
    }

    /** Closes a request: everything it held returns to the pool and it can never acquire again. */
    method Close(r: Request) returns (ghost order: seq<nat>)
      requires Valid() && Owns(r)
      modifies Repr()
      ensures Valid() && known == old(known) && fresh(Repr() - old(Repr()))
      ensures Model.Registered(old(state)) && Model.WaitersKnown(old(state))
      ensures r.id in old(state).reqs && Model.PendingKnown(old(state), r.id) && Model.ValidOrder(old(state), r.id, order)
      ensures forall c :: c in order ==> c in old(state).chunks
      ensures state == Model.Close(old(state), r.id, order)
    {
      hide Coupled, Steady, Inv, Blank, RequestOk, Vacated, Model.Close, Model.ValidOrder, Model.PendingKnown, Repr;
      FlagsOf(r);
      AtRest();
      ClosedIsUnregistered(state, r.id);
      if r.closed {
        order := [];
        NothingToRelease(state, r.id);
        ClosedStays(state, r.id);
        return;
      }
      ghost var s := state;
      order := VacateAndDepart(r);
      CloseIsSteady(s, r.id, order);
    }
  }

  /** The pool once a request has been listed as a waiter. */
  function Joined(s: Model.Pool, id: nat): Model.Pool
    requires id in s.reqs
  {
    Model.SetRequest(s, id, s.reqs[id].(waiting := true)).(waiters := s.waiters + [id])
  }

  ghost predicate ReadyToJoin(s: Model.Pool, id: nat)
    requires id in s.reqs
  {
    Core(Joined(s, id)) && WaitersAre(Joined(s, id), Joined(s, id).waiters)
  }

  lemma JoinReady(s: Model.Pool, id: nat)
    requires Inv(s) && id in s.reqs && !s.reqs[id].closed && !s.reqs[id].waiting && s.reqs[id].pending.None?
    ensures ReadyToJoin(s, id)
  {
    hide Sound, Open;
    ClosedIsUnregistered(s, id);
    JoinKeepsInv(s, id);
    InvIsCore(Joined(s, id));
  }

  lemma InvIsCore(s: Model.Pool)
    requires Inv(s)
    ensures Core(s) && WaitersAre(s, s.waiters)
  {
  }

  lemma PassStarts(s: Model.Pool)
    requires Core(s) && WaitersAre(s, s.waiters)
    ensures Model.WaitersKnown(s) && Model.ScheduleTo(s, 0) == s.(waiters := [])
    ensures Model.Schedule(s) == Model.ScheduleTo(s, |s.waiters|)
  {
  }

  datatype BudgetError = ErrBudget

  /** Makes a buffer; a budget that is no positive multiple of the chunk size is an error. */
  method NewMediaBuffer(hardBudget: int) returns (buffer: MediaBuffer?, error: Option<BudgetError>)
    ensures error.None? <==> Model.ValidBudget(hardBudget)
    ensures error.None? <==> buffer != null
    ensures buffer != null ==> buffer.Valid() && fresh(buffer.Repr()) && buffer.state == Model.InitialPool(hardBudget)
  {
    if hardBudget < Model.CHUNK || hardBudget % 32768 != 0 {
      return null, Some(ErrBudget);
    }
    buffer := new MediaBuffer(hardBudget);
    error := None;
  }

  lemma CoreOf(s: Model.Pool)
    requires Inv(s)
    ensures Core(s)
  {
  }

  /** A pool whose request holds chunk `c` may take it back and schedule. */
  lemma ReleaseReady(s: Model.Pool, id: nat, c: nat)
    requires Inv(s) && id in s.reqs && !s.reqs[id].closed && c in s.reqs[id].accepted
    ensures c in s.chunks
    ensures var q := Model.ReleaseAccepted(s, id, c); Core(q) && WaitersAre(q, q.waiters) && Model.WaitersKnown(q)
  {
    ClosedIsUnregistered(s, id);
    hide Core;
    ReleaseKeepsSound(s, id, c);
  }

  lemma ReleaseIsSteady(s: Model.Pool, id: nat, lease: Model.Lease)
    requires Steady(s) && id in s.reqs
    ensures Model.WaitersKnown(s) && Steady(Model.ReleaseOptional(s, id, lease).0)
  {
    hide Steady, ViewsExcept;
    SteadyKnows(s);
    ReleaseSettles(s, id, lease);
  }

  lemma RequestIsSteady(s: Model.Pool, id: nat)
    requires Steady(s) && id in s.reqs
    ensures Model.WaitersKnown(s) && Steady(Model.RequestOptional(s, id).0)
  {
    hide Steady, ViewsExcept;
    SteadyKnows(s);
    RequestSettles(s, id);
  }

  lemma SteadyKnows(s: Model.Pool)
    requires Steady(s)
    ensures Model.WaitersKnown(s) && Model.Registered(s)
  {
    OpenRegistry(s);
  }

  lemma ReceiveIsSteady(s: Model.Pool, id: nat)
    requires Steady(s) && id in s.reqs
    ensures Steady(Model.ReceiveNotification(s, id))
  {
    hide Steady, ViewsExcept;
    ReceiveSettles(s, id);
  }

  lemma AcceptIsSteady(s: Model.Pool, id: nat)
    requires Steady(s) && id in s.reqs
    ensures Steady(Model.AcceptOptional(s, id).0)
  {
    hide Steady, ViewsExcept;
    AcceptSettles(s, id);
  }

  lemma CancelIsSteady(s: Model.Pool, id: nat)
    requires Steady(s) && id in s.reqs
    ensures Model.WaitersKnown(s) && Model.PendingKnown(s, id) && Steady(Model.CancelOptional(s, id).0)
  {
    hide Steady, ViewsExcept;
    SteadyKnows(s);
    CancelSettles(s, id);
  }

  /** A pool whose request has a pending grant may take it back and schedule. */
  lemma ReclaimReady(s: Model.Pool, id: nat)
    requires Inv(s) && id in s.reqs && !s.reqs[id].closed && s.reqs[id].pending.Some?
    ensures Core(s) && PendingIn(s, id)
    ensures var q := Model.ReclaimPending(s, id); Core(q) && WaitersAre(q, q.waiters) && Model.WaitersKnown(q)
  {
    ClosedIsUnregistered(s, id);
    hide Core;
    ReclaimKeepsSound(s, id);
  }

  lemma WaitingIsListed(s: Model.Pool, id: nat)
    requires Inv(s) && id in s.reqs
    ensures s.reqs[id].waiting <==> id in s.waiters
  {
  }

  lemma KnownAre(known: map<nat, Request>, made: map<nat, Chunk>, reqs: map<nat, Model.Request>)
    requires RequestsMatch(known, made, reqs)
    ensures known.Keys == reqs.Keys
  {
  }

  lemma KnownGrows(known: map<nat, Request>, made: map<nat, Chunk>, reqs: map<nat, Model.Request>, r: Request)
    requires RequestsMatch(known, made, reqs) && r.id !in known && RequestMatches(made, r, Model.NEW_REQUEST)
    ensures RequestsMatch(known[r.id := r], made, reqs[r.id := Model.NEW_REQUEST])
  {
  }

  lemma RosterGrows(known: map<nat, Request>, requests: seq<Request>, ids: seq<nat>, r: Request)
    requires RosterMatch(known, requests, ids) && r.id !in known
    ensures RosterMatch(known[r.id := r], requests + [r], ids + [r.id])
  {
  }

  lemma WaitersSurvive(known: map<nat, Request>, waiters: array<Request?>, count: nat, ids: seq<nat>, r: Request)
    requires WaitersMatch(known, waiters, count, ids) && r.id !in known
    ensures WaitersMatch(known[r.id := r], waiters, count, ids)
  {
  }

  lemma OwnedIsNonnegative(s: Model.Pool)
    requires Inv(s)
    ensures s.ownedBytes >= 0
  {
    OpenRegistry(s);
    forall id | id in s.requests
      ensures s.reqs[id].owned >= 0
    {
      assert RequestOk(id, s.reqs[id]);
    }
    RecountBounds(s.requests, s.reqs);
  }

  lemma {:induction false} DistinctWithin(a: seq<nat>, b: seq<nat>)
    requires Model.Distinct(a) && forall x :: x in a ==> x in b
    ensures |a| <= |b|
  {
    if |a| > 0 {
      var last := a[|a| - 1];
      assert last in b by { assert last in a; }
      var i :| 0 <= i < |b| && b[i] == last;
      var rest := b[..i] + b[i + 1..];
      assert b == b[..i] + [last] + b[i + 1..];
      forall x | x in a[..|a| - 1]
        ensures x in rest
      {
        assert x != last && x in b;
      }
      DistinctWithin(a[..|a| - 1], rest);
    }
  }

  lemma WaitersWithinRequests(ws: seq<nat>, requests: seq<nat>, s: Model.Pool)
    requires Inv(s) && ws == s.waiters && requests == s.requests
    ensures |ws| <= |requests|
  {
    forall x | x in ws
      ensures x in requests
    {
      Runs.WaiterIs(s, x);
    }
    DistinctWithin(ws, requests);
  }

  ghost predicate MadeExtends(a: map<nat, Chunk>, b: map<nat, Chunk>) {
    forall c :: c in a ==> c in b && b[c] == a[c]
  }

  lemma TakeKeepsRequests(s: Model.Pool)
    ensures Model.TakeChunk(s).1.reqs == s.reqs && Model.TakeChunk(s).1.waiters == s.waiters
  {
  }

  lemma GrantableHasNoPending(s: Model.Pool, id: nat)
    requires id in s.reqs && Model.CanGrant(s, id)
    ensures s.reqs[id].pending.None?
  {
  }

  /** Why the panic on a missing waiter cannot happen. */
  lemma WaiterFound(known: map<nat, Request>, waiters: array<Request?>, count: nat, ids: seq<nat>, r: Request,
      index: nat)
    requires WaitersMatch(known, waiters, count, ids) && r.id in ids && r.id in known && known[r.id] == r
    requires index <= count && forall i :: 0 <= i < index ==> waiters[i] != r
    requires index < count ==> waiters[index] == r
    requires forall x :: x in known && x != r.id ==> known[x] != r
    ensures index < count && ids[index] == r.id && r.id !in ids[..index]
  {
    var k :| 0 <= k < |ids| && ids[k] == r.id;
    assert waiters[k] == r;
  }

  lemma {:induction false} WithoutFirstAt(ids: seq<nat>, id: nat, k: nat)
    requires k < |ids| && ids[k] == id && id !in ids[..k]
    ensures Model.WithoutFirst(ids, id) == ids[..k] + ids[k + 1..]
  {
    if k > 0 {
      assert ids[0] == ids[..k][0];
      assert ids[1..][..k - 1] == ids[..k][1..];
      WithoutFirstAt(ids[1..], id, k - 1);
    }
  }

  ghost predicate PendingIn(s: Model.Pool, id: nat) {
    id in s.reqs && s.reqs[id].pending.Some? && s.reqs[id].pending.value.chunk in s.chunks
  }

  lemma NoChunkZero(s: Model.Pool)
    requires Core(s)
    ensures 0 !in s.chunks
  {
  }

  lemma SoundKnowsPending(s: Model.Pool, id: nat)
    requires Sound(s) && id in s.reqs
    ensures Model.PendingKnown(s, id)
    ensures s.reqs[id].pending.Some? ==> s.reqs[id].pending.value.chunk in s.chunks
  {
    KnownRequest(s, id);
  }

  lemma ReleaseNone(s: Model.Pool, id: nat)
    requires id in s.reqs
    ensures Model.ReleaseAll(s, id, []) == s && Model.Distinct([])
  {
  }

  lemma ReleaseNext(s: Model.Pool, id: nat, order: seq<nat>, c: nat)
    requires id in s.reqs && c in s.chunks && c !in order && Model.Distinct(order)
    requires forall d :: d in order ==> d in s.chunks
    ensures Model.Distinct(order + [c])
    ensures forall d :: d in order + [c] ==> d in s.chunks
    ensures Model.ReleaseAll(s, id, order + [c]) == Model.ReleaseAccepted(Model.ReleaseAll(s, id, order), id, c)
  {
    assert (order + [c])[..|order|] == order;
  }

  lemma FewerChunks(chunks: map<Chunk, nat>, chunk: Chunk)
    requires chunk in chunks
    ensures |chunks - {chunk}| < |chunks|
  {
    var rest := chunks - {chunk};
    assert rest.Keys == chunks.Keys - {chunk};
    assert |rest| == |rest.Keys| && |chunks| == |chunks.Keys|;
  }

  lemma AllReleased(s: Model.Pool, id: nat, order: seq<nat>)
    requires id in s.reqs && Model.Distinct(order) && forall c :: c in order ==> c in s.reqs[id].accepted
    requires s.reqs[id].accepted - SetOf(order) == map[]
    ensures Model.ValidOrder(s, id, order)
  {
    forall c | c in s.reqs[id].accepted
      ensures c in order
    {
      assert c !in s.reqs[id].accepted - SetOf(order);
    }
  }

  lemma Registry(s: Model.Pool, p: Model.Pool, id: nat)
    requires id in s.reqs && OnlyRequest(s, p, id)
    ensures p.requests == s.requests && p.reqs.Keys == s.reqs.Keys
  {
  }

  lemma NothingToRelease(s: Model.Pool, id: nat)
    requires Inv(s) && id in s.reqs && s.reqs[id].closed
    ensures Model.ValidOrder(s, id, [])
  {
    ClosedIsUnregistered(s, id);
  }

  lemma ClosedStays(s: Model.Pool, id: nat)
    requires Inv(s) && id in s.reqs && s.reqs[id].closed
    ensures Model.Registered(s) && Model.WaitersKnown(s) && Model.PendingKnown(s, id) && Model.Close(s, id, []) == s
  {
    OpenRegistry(s);
    ClosedIsUnregistered(s, id);
  }

  lemma CloseIsSteady(s: Model.Pool, id: nat, order: seq<nat>)
    requires Steady(s) && id in s.reqs && Model.ValidOrder(s, id, order) && !s.reqs[id].closed
    ensures Model.Registered(s) && Model.WaitersKnown(s) && Model.PendingKnown(s, id)
    ensures forall c :: c in order ==> c in s.chunks
    ensures Vacated(Model.Vacate(s, id, order), id)
    ensures Steady(Model.Close(s, id, order))
  {
    hide Sound, Model.Vacate, Vacated, OnlyRequest, ViewsExcept, WorkConserving, Model.ValidOrder;
    ClosedIsUnregistered(s, id);
    CloseSettles(s, id, order);
    VacatedByClose(s, id, order);
  }
}

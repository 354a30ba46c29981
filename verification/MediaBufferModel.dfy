/**
 The optional-chunk allocator of `internal/gateway/media_buffer.go`, as a state machine on values.

 A `Pool` is everything the allocator's mutex protects. Chunks and requests are named by their ids,
 and every function below is one critical section or one of the helpers it calls. The class in
 `MediaBuffer.dfy` runs the same steps on heap objects and is proved against these functions.
 */
module MediaBufferModel {
  import opened Wrappers

  const CHUNK: int := 32768
  const REQUEST_CAP: int := 536870912

  /** A grant of one chunk to one request. Chunk ids start at 1; 0 stands for a nil chunk. */
  datatype Lease = Lease(chunk: nat, requestID: nat, generation: nat)

  datatype Chunk = Chunk(generation: nat, ownerID: nat)

  /** `notify` is true while the one-slot notification channel holds a value. */
  datatype Request = Request(
    target: int, owned: int, debt: int,
    waiting: bool, closed: bool, notify: bool,
    pending: Option<Lease>, accepted: map<nat, nat>)

  datatype Pool = Pool(
    hardBudget: int, allocatedBytes: int, ownedBytes: int,
    free: seq<nat>, requests: seq<nat>, waiters: seq<nat>,
    nextRequestID: nat, nextChunkID: nat, nextGrant: nat,
    baseOnly: int, indebted: int, debtBytes: int,
    reqs: map<nat, Request>, chunks: map<nat, Chunk>)

  datatype Error = ErrClosed | ErrNoGrant | ErrOwnership

  datatype Outcome = Done | Accepted(lease: Lease) | Failed(error: Error)

  const NEW_REQUEST := Request(0, 0, 0, false, false, false, None, map[])

  /** The bytes of `n` chunks. */
  function ChunkBytes(n: int): int {
    32768 * n
  }

  predicate Aligned(size: int) {
    size % 32768 == 0
  }

  predicate ValidBudget(hardBudget: int) {
    hardBudget >= CHUNK && Aligned(hardBudget)
  }

  function InitialPool(hardBudget: int): Pool {
    Pool(hardBudget, 0, 0, [], [], [], 0, 0, 0, 0, 0, 0, map[], map[])
  }

  function Align(size: int): int {
    if size <= 0 then 0 else ChunkBytes(size / 32768)
  }

  function Max0(x: int): int {
    if x < 0 then 0 else x
  }

  function TargetFor(hardBudget: int, n: nat): int
    requires n > 0
  {
    var target := Align(hardBudget / n);
    if target > REQUEST_CAP then REQUEST_CAP else target
  }

  // ---- the three incremental counters --------------------------------------------------------

  function AddCounters(s: Pool, r: Request): Pool {
    s.(baseOnly := s.baseOnly + (if r.owned == 0 then 1 else 0),
       indebted := s.indebted + (if r.debt > 0 then 1 else 0),
       debtBytes := s.debtBytes + (if r.debt > 0 then r.debt else 0))
  }

  function RemoveCounters(s: Pool, r: Request): Pool {
    s.(baseOnly := s.baseOnly - (if r.owned == 0 then 1 else 0),
       indebted := s.indebted - (if r.debt > 0 then 1 else 0),
       debtBytes := s.debtBytes - (if r.debt > 0 then r.debt else 0))
  }

  function SetRequest(s: Pool, id: nat, r: Request): Pool {
    s.(reqs := s.reqs[id := r])
  }

  /** Changes a request's byte accounting: its old counters go, its new ones come. */
  function Reaccount(s: Pool, id: nat, r: Request): Pool
    requires id in s.reqs
  {
    AddCounters(SetRequest(RemoveCounters(s, s.reqs[id]), id, r), r)
  }

  function WithOwned(r: Request, owned: int): Request {
    r.(owned := owned, debt := Max0(owned - r.target))
  }

  function WithTarget(r: Request, target: int): Request {
    r.(target := target, debt := Max0(r.owned - target))
  }

  // ---- targets -------------------------------------------------------------------------------

  predicate Registered(s: Pool) {
    forall id :: id in s.requests ==> id in s.reqs
  }

  /** The first `k` registered requests have received the new target. */
  function RetargetTo(s: Pool, target: int, k: nat): (p: Pool)
    requires Registered(s) && k <= |s.requests|
    ensures p.reqs.Keys == s.reqs.Keys && p.requests == s.requests && p.waiters == s.waiters
  {
    if k == 0 then s
    else
      var p := RetargetTo(s, target, k - 1);
      var id := s.requests[k - 1];
      Reaccount(p, id, WithTarget(p.reqs[id], target))
  }

  function RecomputeTargets(s: Pool): (p: Pool)
    requires Registered(s)
    ensures p.reqs.Keys == s.reqs.Keys && p.requests == s.requests && p.waiters == s.waiters
  {
    if |s.requests| == 0 then s
    else RetargetTo(s, TargetFor(s.hardBudget, |s.requests|), |s.requests|)
  }

  // ---- grants --------------------------------------------------------------------------------

  predicate PoolSpace(s: Pool) {
    |s.free| > 0 || s.allocatedBytes + CHUNK <= s.hardBudget
  }

  predicate CanGrant(s: Pool, id: nat)
    requires id in s.reqs
  {
    var r := s.reqs[id];
    && !r.closed && r.waiting && r.pending.None? && r.debt == 0
    && r.owned + CHUNK <= r.target
    && PoolSpace(s)
  }

  datatype Blocker = BlockerNone | BlockerDebt | BlockerAtTarget | BlockerPoolExhausted

  /** Why a request that asked for a chunk does not get one. */
  function RequestBlocker(s: Pool, id: nat): Blocker
    requires id in s.reqs
  {
    var r := s.reqs[id];
    if !r.waiting || r.pending.Some? || r.closed then BlockerNone
    else if r.debt > 0 then BlockerDebt
    else if r.owned + CHUNK > r.target then BlockerAtTarget
    else if |s.free| == 0 && s.allocatedBytes + CHUNK > s.hardBudget then BlockerPoolExhausted
    else BlockerNone
  }

  /** The chunk taken, and the pool after taking it: the last free chunk, or a new one. */
  function TakeChunk(s: Pool): (Option<nat>, Pool) {
    if |s.free| > 0 then
      (Some(s.free[|s.free| - 1]), s.(free := s.free[..|s.free| - 1]))
    else if s.allocatedBytes + CHUNK > s.hardBudget then
      (None, s)
    else
      var c := s.nextChunkID + 1;
      (Some(c), s.(nextChunkID := c, allocatedBytes := s.allocatedBytes + CHUNK, chunks := s.chunks[c := Chunk(0, 0)]))
  }

  function Grant(s: Pool, id: nat, c: nat): (p: Pool)
    requires id in s.reqs
    ensures p.reqs.Keys == s.reqs.Keys && p.waiters == s.waiters && p.requests == s.requests
  {
    var g := s.nextGrant + 1;
    var r := s.reqs[id].(waiting := false, pending := Some(Lease(c, id, g)));
    var p := SetRequest(s.(nextGrant := g, chunks := s.chunks[c := Chunk(g, id)]), id, r);
    var q := Reaccount(p, id, WithOwned(r, r.owned + CHUNK));
    SetRequest(q.(ownedBytes := q.ownedBytes + CHUNK), id, q.reqs[id].(notify := true))
  }

  function ScheduleOne(s: Pool, id: nat): (p: Pool)
    requires id in s.reqs
    ensures p.reqs.Keys == s.reqs.Keys && p.requests == s.requests
  {
    if !CanGrant(s, id) then s.(waiters := s.waiters + [id])
    else
      match TakeChunk(s)
      case (None, p) => p.(waiters := p.waiters + [id])
      case (Some(c), p) => Grant(p, id, c)
  }

  predicate WaitersKnown(s: Pool) {
    forall id :: id in s.waiters ==> id in s.reqs
  }

  /** One scheduling pass after its first `k` waiters: `waiters` holds those of them that stay. */
  function ScheduleTo(s: Pool, k: nat): (p: Pool)
    requires WaitersKnown(s) && k <= |s.waiters|
    ensures p.reqs.Keys == s.reqs.Keys && p.requests == s.requests
  {
    if k == 0 then s.(waiters := [])
    else ScheduleOne(ScheduleTo(s, k - 1), s.waiters[k - 1])
  }

  function Schedule(s: Pool): Pool
    requires WaitersKnown(s)
  {
    ScheduleTo(s, |s.waiters|)
  }

  // ---- returning chunks ----------------------------------------------------------------------

  function ReleaseOwnedChunk(s: Pool, id: nat, c: nat): Pool
    requires id in s.reqs && c in s.chunks
  {
    var p := s.(chunks := s.chunks[c := s.chunks[c].(ownerID := 0)]);
    var r := p.reqs[id];
    var q := Reaccount(p, id, WithOwned(r, r.owned - CHUNK));
    q.(ownedBytes := q.ownedBytes - CHUNK, free := q.free + [c])
  }

  function ReleaseAccepted(s: Pool, id: nat, c: nat): Pool
    requires id in s.reqs && c in s.chunks
  {
    var r := s.reqs[id];
    ReleaseOwnedChunk(SetRequest(s, id, r.(accepted := r.accepted - {c})), id, c)
  }

  function ReclaimPending(s: Pool, id: nat): Pool
    requires id in s.reqs && s.reqs[id].pending.Some? && s.reqs[id].pending.value.chunk in s.chunks
  {
    var r := s.reqs[id];
    ReleaseOwnedChunk(SetRequest(s, id, r.(pending := None, notify := false)), id, r.pending.value.chunk)
  }

  function WithoutFirst(ids: seq<nat>, id: nat): (rest: seq<nat>)
    ensures forall x :: x in rest ==> x in ids
  {
    if |ids| == 0 then []
    else if ids[0] == id then ids[1..]
    else [ids[0]] + WithoutFirst(ids[1..], id)
  }

  function RemoveWaiter(s: Pool, id: nat): Pool
    requires id in s.reqs
  {
    SetRequest(s.(waiters := WithoutFirst(s.waiters, id)), id, s.reqs[id].(waiting := false))
  }

  /** Chunks are returned in the order the map iteration yields them, which Go leaves open. */
  function ReleaseAll(s: Pool, id: nat, order: seq<nat>): (p: Pool)
    requires id in s.reqs
    requires forall c :: c in order ==> c in s.chunks
    ensures p.reqs.Keys == s.reqs.Keys && p.chunks.Keys == s.chunks.Keys
    ensures p.requests == s.requests && p.waiters == s.waiters
  {
    if |order| == 0 then s
    else
      var p := ReleaseAll(s, id, order[..|order| - 1]);
      ReleaseAccepted(p, id, order[|order| - 1])
  }

  // ---- the public operations -----------------------------------------------------------------

  function Register(s: Pool): Pool
    requires Registered(s) && WaitersKnown(s)
  {
    var id := s.nextRequestID + 1;
    var p := SetRequest(s.(nextRequestID := id, requests := s.requests + [id]), id, NEW_REQUEST);
    Schedule(RecomputeTargets(AddCounters(p, NEW_REQUEST)))
  }

  function RequestOptional(s: Pool, id: nat): (Pool, Outcome)
    requires WaitersKnown(s) && id in s.reqs
  {
    var r := s.reqs[id];
    if r.closed then (s, Failed(ErrClosed))
    else if r.pending.Some? || r.waiting then (s, Done)
    else
      var p := SetRequest(s, id, r.(waiting := true));
      (Schedule(p.(waiters := p.waiters + [id])), Done)
  }

  /** A receive from the notification channel by the request's own goroutine. */
  function ReceiveNotification(s: Pool, id: nat): Pool
    requires id in s.reqs
  {
    SetRequest(s, id, s.reqs[id].(notify := false))
  }

  function AcceptOptional(s: Pool, id: nat): (Pool, Outcome)
    requires id in s.reqs
  {
    var r := s.reqs[id];
    if r.closed then (s, Failed(ErrClosed))
    else
      match r.pending
      case None => (s, Failed(ErrNoGrant))
      case Some(lease) =>
        var r' := r.(pending := None, notify := false, accepted := r.accepted[lease.chunk := lease.generation]);
        (SetRequest(s, id, r'), Accepted(lease))
  }

  predicate PendingKnown(s: Pool, id: nat)
    requires id in s.reqs
  {
    s.reqs[id].pending.Some? ==> s.reqs[id].pending.value.chunk in s.chunks
  }

  function CancelOptional(s: Pool, id: nat): (Pool, Outcome)
    requires WaitersKnown(s) && id in s.reqs && PendingKnown(s, id)
  {
    var r := s.reqs[id];
    if r.closed then (s, Failed(ErrClosed))
    else if r.pending.Some? then (Schedule(ReclaimPending(s, id)), Done)
    else if r.waiting then (RemoveWaiter(s, id), Done)
    else (s, Done)
  }

  predicate ValidLease(s: Pool, id: nat, lease: Lease)
    requires id in s.reqs
  {
    && lease.chunk in s.chunks
    && lease.requestID == id
    && s.chunks[lease.chunk] == Chunk(lease.generation, id)
    && lease.chunk in s.reqs[id].accepted
    && s.reqs[id].accepted[lease.chunk] == lease.generation
  }

  function ReleaseOptional(s: Pool, id: nat, lease: Lease): (Pool, Outcome)
    requires WaitersKnown(s) && id in s.reqs
  {
    if s.reqs[id].closed then (s, Failed(ErrClosed))
    else if !ValidLease(s, id, lease) then (s, Failed(ErrOwnership))
    else (Schedule(ReleaseAccepted(s, id, lease.chunk)), Done)
  }

  function WithoutRequest(s: Pool, id: nat): Pool
    requires id in s.reqs
  {
    var p := RemoveCounters(s, s.reqs[id]);
    p.(requests := WithoutFirst(p.requests, id))
  }

  function Unlist(s: Pool, id: nat): (p: Pool)
    requires id in s.reqs
    ensures p.reqs.Keys == s.reqs.Keys && p.chunks == s.chunks && p.requests == s.requests
    ensures p.reqs[id].pending == s.reqs[id].pending
    ensures forall x :: x in p.waiters ==> x in s.waiters
  {
    if s.reqs[id].waiting then RemoveWaiter(s, id) else s
  }

  function Unpend(s: Pool, id: nat): (p: Pool)
    requires id in s.reqs && PendingKnown(s, id)
    ensures p.reqs.Keys == s.reqs.Keys && p.chunks.Keys == s.chunks.Keys && p.requests == s.requests
    ensures p.waiters == s.waiters
  {
    if s.reqs[id].pending.Some? then ReclaimPending(s, id)
    else SetRequest(s, id, s.reqs[id].(notify := false))
  }

  /** The part of a close that comes before the request leaves the registry. */
  function Vacate(s: Pool, id: nat, order: seq<nat>): (p: Pool)
    requires id in s.reqs && PendingKnown(s, id)
    requires forall c :: c in order ==> c in s.chunks
    ensures p.reqs.Keys == s.reqs.Keys && p.requests == s.requests
    ensures forall x :: x in p.waiters ==> x in s.waiters
  {
    var p := SetRequest(s, id, s.reqs[id].(closed := true));
    ReleaseAll(Unpend(Unlist(p, id), id), id, order)
  }

  /** `order` lists the accepted chunks as the map iteration of the close meets them. */
  ghost predicate ValidOrder(s: Pool, id: nat, order: seq<nat>)
    requires id in s.reqs
  {
    && (forall c :: c in order <==> c in s.reqs[id].accepted)
    && Distinct(order)
  }

  predicate Distinct(ids: seq<nat>) {
    forall i, j :: 0 <= i < j < |ids| ==> ids[i] != ids[j]
  }

  function Close(s: Pool, id: nat, order: seq<nat>): Pool
    requires Registered(s) && WaitersKnown(s) && id in s.reqs && PendingKnown(s, id)
    requires forall c :: c in order ==> c in s.chunks
  {
    if s.reqs[id].closed then s
    else Schedule(RecomputeTargets(WithoutRequest(Vacate(s, id, order), id)))
  }
}

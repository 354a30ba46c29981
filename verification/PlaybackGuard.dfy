/**
 The playback denial guard of `internal/gateway/playback_guard.go`: denials that expire, that a success
 clears only if it began after them, and audit events with a cooldown.
 */
module PlaybackGuard {
  import opened Wrappers

  // Two minutes, in the clock's units.
  const TTL: nat := 120000000000
  const COOLDOWN: nat := 120000000000

  type Key = nat

  datatype Kind = Denied | Suppressed

  datatype AuditKey = AuditKey(key: Key, kind: Kind)

  datatype Guard = Guard(generation: nat, expiresAt: int)

  datatype State = State(guards: map<Key, Guard>, cooldowns: map<AuditKey, int>, generation: nat)

  // ---- the operations as functions of the state -----------------------------------------------

  function SweptGuards(guards: map<Key, Guard>, now: int): map<Key, Guard> {
    map k | k in guards && now < guards[k].expiresAt :: guards[k]
  }

  function SweptCooldowns(cooldowns: map<AuditKey, int>, now: int): map<AuditKey, int> {
    map a | a in cooldowns && now < cooldowns[a] :: cooldowns[a]
  }

  function Swept(s: State, now: int): State {
    s.(guards := SweptGuards(s.guards, now), cooldowns := SweptCooldowns(s.cooldowns, now))
  }

  function GenerationAt(s: State, key: Key): nat {
    if key in s.guards then s.guards[key].generation else 0
  }

  function Audited(s: State, a: AuditKey, now: int): (State, bool) {
    if a in s.cooldowns && now < s.cooldowns[a] then (s, false)
    else (s.(cooldowns := s.cooldowns[a := now + COOLDOWN]), true)
  }

  function Deny(s: State, key: Key, now: int): (State, bool) {
    var t := Swept(s, now);
    var g := t.generation + 1;
    Audited(t.(generation := g, guards := t.guards[key := Guard(g, now + TTL)]), AuditKey(key, Denied), now)
  }

  function Clear(s: State, key: Key, generation: nat, now: int): State {
    var t := Swept(s, now);
    if generation != 0 && key in t.guards && t.guards[key].generation == generation
    then t.(guards := t.guards - {key}) else t
  }

  function Suppress(s: State, key: Key, now: int): (State, bool, bool) {
    var t := Swept(s, now);
    if key !in t.guards then (t, false, false)
    else
      var (u, audit) := Audited(t, AuditKey(key, Suppressed), now);
      (u, true, audit)
  }

  // ---- the tracker ----------------------------------------------------------------------------

  class PlaybackGuardTracker {
    var guards: map<Key, Guard>
    var cooldowns: map<AuditKey, int>
    var generation: nat

    function Value(): State
      reads this
    {
      State(guards, cooldowns, generation)
    }

    constructor ()
      ensures Value() == State(map[], map[], 0)
    {
      guards, cooldowns, generation := map[], map[], 0;
    }

    /** Drops what has expired. */
    method Sweep(now: int)
      modifies this
      ensures Value() == Swept(old(Value()), now)
    {
      var keys := guards.Keys;
      while keys != {}
        invariant keys <= old(guards).Keys && cooldowns == old(cooldowns) && generation == old(generation)
        invariant forall k :: k in guards <==> k in old(guards) && (k in keys || now < old(guards)[k].expiresAt)
        invariant forall k :: k in guards ==> guards[k] == old(guards)[k]
      {
        var key :| key in keys;
        if key in guards && !(now < guards[key].expiresAt) {
          guards := guards - {key};
        }
        keys := keys - {key};
      }
      var audits := cooldowns.Keys;
      while audits != {}
        invariant audits <= old(cooldowns).Keys && guards == SweptGuards(old(guards), now) && generation == old(generation)
        invariant forall a :: a in cooldowns <==> a in old(cooldowns) && (a in audits || now < old(cooldowns)[a])
        invariant forall a :: a in cooldowns ==> cooldowns[a] == old(cooldowns)[a]
      {
        var a :| a in audits;
        if a in cooldowns && !(now < cooldowns[a]) {
          cooldowns := cooldowns - {a};
        }
        audits := audits - {a};
      }
      assert cooldowns == SweptCooldowns(old(cooldowns), now);
    }

    method AuditEligible(key: Key, kind: Kind, now: int) returns (audit: bool)
      modifies this`cooldowns
      ensures (Value(), audit) == Audited(old(Value()), AuditKey(key, kind), now)
    {
      var a := AuditKey(key, kind);
      if a in cooldowns && now < cooldowns[a] {
        return false;
      }
      cooldowns := cooldowns[a := now + COOLDOWN];
      return true;
    }

    method Snapshot(key: Key, now: int) returns (g: nat)
      modifies this
      ensures Value() == Swept(old(Value()), now) && g == GenerationAt(Value(), key)
    {
      Sweep(now);
      g := if key in guards then guards[key].generation else 0;
    }

    method RecordDenial(key: Key, now: int) returns (audit: bool)
      modifies this
      ensures (Value(), audit) == Deny(old(Value()), key, now)
    {
      Sweep(now);
      generation := generation + 1;
      guards := guards[key := Guard(generation, now + TTL)];
      audit := AuditEligible(key, Denied, now);
    }

    method ClearIfGeneration(key: Key, g: nat, now: int)
      modifies this
      ensures Value() == Clear(old(Value()), key, g, now)
    {
      Sweep(now);
      if g == 0 {
        return;
      }
      if key in guards && guards[key].generation == g {
        guards := guards - {key};
      }
    }

    method SuppressReport(key: Key, now: int) returns (active: bool, audit: bool)
      modifies this
      ensures (Value(), active, audit) == Suppress(old(Value()), key, now)
    {
      Sweep(now);
      active, audit := key in guards, false;
      if active {
        audit := AuditEligible(key, Suppressed, now);
      }
    }
  }

  // ---- whole runs -----------------------------------------------------------------------------

  /** A clearing names the snapshot it was taken with, by its place in the run. */
  datatype Op =
    | OpSnapshot(key: Key) | OpDeny(key: Key) | OpClear(key: Key, snapshot: nat) | OpSuppress(key: Key)

  datatype Event = Event(op: Op, now: int)

  /** One event; `g` is the generation that a clearing brings with it. */
  function Apply(s: State, e: Event, g: nat): State {
    match e.op
    case OpSnapshot(_) => Swept(s, e.now)
    case OpDeny(key) => Deny(s, key, e.now).0
    case OpSuppress(key) => Suppress(s, key, e.now).0
    case OpClear(key, _) => Clear(s, key, g, e.now)
  }

  /** What the snapshot at place `i` answered. */
  function SnapshotOf(events: seq<Event>, i: nat): nat
    decreases i, 1
  {
    if i < |events| && events[i].op.OpSnapshot? then GenerationAt(Swept(After(events, i), events[i].now), events[i].op.key) else 0
  }

  /** The state after the first `n` events. A clearing uses what its snapshot, which came before, answered. */
  function After(events: seq<Event>, n: nat): State
    decreases n, 0
  {
    if n == 0 || n > |events| then State(map[], map[], 0)
    else
      var e := events[n - 1];
      Apply(After(events, n - 1), e, if e.op.OpClear? && e.op.snapshot < n - 1 then SnapshotOf(events, e.op.snapshot) else 0)
  }

  /** The clock does not go back, and a clearing is for the key of an earlier snapshot. */
  ghost predicate Sound(events: seq<Event>) {
    && (forall i, j :: 0 <= i <= j < |events| ==> events[i].now <= events[j].now)
    && (forall i :: 0 <= i < |events| && events[i].op.OpClear? ==>
      var k := events[i].op.snapshot;
      k < i && events[k].op.OpSnapshot? && events[k].op.key == events[i].op.key)
  }

  /** Generations in use were handed out before. */
  ghost predicate Numbered(s: State) {
    forall k :: k in s.guards ==> 1 <= s.guards[k].generation <= s.generation
  }

  lemma ApplyNumbers(s: State, e: Event, g: nat)
    requires Numbered(s)
    ensures Numbered(Apply(s, e, g)) && s.generation <= Apply(s, e, g).generation
  {
  }

  lemma ApplyKeepsCooldown(s: State, e: Event, g: nat, a: AuditKey, until: int)
    requires a in s.cooldowns && s.cooldowns[a] >= until > e.now
    ensures a in Apply(s, e, g).cooldowns && Apply(s, e, g).cooldowns[a] >= until
  {
  }

  lemma {:induction false} AfterIsNumbered(events: seq<Event>, n: nat)
    requires n <= |events|
    ensures Numbered(After(events, n)) && (n > 0 ==> After(events, n - 1).generation <= After(events, n).generation)
  {
    if n > 0 {
      AfterIsNumbered(events, n - 1);
      var e := events[n - 1];
      var g := if e.op.OpClear? && e.op.snapshot < n - 1 then SnapshotOf(events, e.op.snapshot) else 0;
      hide Apply, Numbered;
      ApplyNumbers(After(events, n - 1), e, g);
    }
  }

  lemma {:induction false} GenerationGrows(events: seq<Event>, i: nat, j: nat)
    requires i <= j <= |events|
    ensures After(events, i).generation <= After(events, j).generation
    decreases j - i
  {
    if i < j {
      AfterIsNumbered(events, j);
      GenerationGrows(events, i, j - 1);
    }
  }

  /** A denial that is gone after an event expired, was replaced by a newer one, or was cleared by a success
      whose snapshot was taken after the denial. */
  lemma DenialRemoval(events: seq<Event>, n: nat, key: Key)
    requires Sound(events) && n < |events| && key in After(events, n).guards
    ensures var g := After(events, n).guards[key];
      var e := events[n];
      var s' := After(events, n + 1);
      || (key in s'.guards && s'.guards[key] == g)
      || g.expiresAt <= e.now
      || (e.op == OpDeny(key) && key in s'.guards && s'.guards[key].generation > g.generation)
      || (e.op.OpClear? && e.op.key == key && e.op.snapshot < n && g.generation <= After(events, e.op.snapshot).generation)
  {
    var e := events[n];
    var s := After(events, n);
    AfterIsNumbered(events, n);
    if e.op.OpClear? && e.op.key == key {
      AfterIsNumbered(events, e.op.snapshot);
    }
  }

  /** A request that began before a denial, in that its snapshot was taken first, never clears it. */
  lemma EarlierRequestDoesNotClear(events: seq<Event>, d: nat, n: nat, key: Key)
    requires Sound(events) && d < n < |events| && events[d].op == OpDeny(key)
    requires events[n].op.OpClear? && events[n].op.key == key && events[n].op.snapshot < d
    requires key in After(events, n).guards && After(events, n).guards[key] == After(events, d + 1).guards[key]
    requires key in After(events, d + 1).guards
    ensures var g := After(events, n).guards[key];
      events[n].now < g.expiresAt ==> key in After(events, n + 1).guards && After(events, n + 1).guards[key] == g
  {
    AfterIsNumbered(events, events[n].op.snapshot);
    GenerationGrows(events, events[n].op.snapshot, d);
    DenialRemoval(events, n, key);
  }

  /** Whether the event at `n` was audited under `a`. */
  function AuditedAt(events: seq<Event>, n: nat, a: AuditKey): bool
    requires n < |events|
  {
    match events[n].op
    case OpDeny(key) => a == AuditKey(key, Denied) && Deny(After(events, n), key, events[n].now).1
    case OpSuppress(key) => a == AuditKey(key, Suppressed) && Suppress(After(events, n), key, events[n].now).2
    case _ => false
  }

  /** After an audit the cooldown stands until it runs out. */
  lemma {:induction false} CooldownStands(events: seq<Event>, i: nat, n: nat, a: AuditKey)
    requires Sound(events) && i < n <= |events| && AuditedAt(events, i, a)
    requires n < |events| ==> events[n].now < events[i].now + COOLDOWN
    requires forall k :: i < k < n ==> events[k].now < events[i].now + COOLDOWN
    ensures a in After(events, n).cooldowns && After(events, n).cooldowns[a] >= events[i].now + COOLDOWN
    decreases n
  {
    if n > i + 1 {
      CooldownStands(events, i, n - 1, a);
      var e := events[n - 1];
      var g := if e.op.OpClear? && e.op.snapshot < n - 1 then SnapshotOf(events, e.op.snapshot) else 0;
      hide Apply, AuditedAt;
      ApplyKeepsCooldown(After(events, n - 1), e, g, a, events[i].now + COOLDOWN);
    }
  }

  /** Two audited events of one key and kind are at least the cooldown apart. */
  lemma AuditsAreApart(events: seq<Event>, i: nat, j: nat, a: AuditKey)
    requires Sound(events) && i < j < |events| && AuditedAt(events, i, a) && AuditedAt(events, j, a)
    ensures events[j].now - events[i].now >= COOLDOWN
  {
    if events[j].now < events[i].now + COOLDOWN {
      CooldownStands(events, i, j, a);
      assert false;
    }
  }

  // ---- what is answered, from the events alone ------------------------------------------------

  /** The last denial of the key among the first `n` events. */
  ghost predicate LastDenial(events: seq<Event>, n: nat, key: Key, d: nat) {
    d < n <= |events| && events[d].op == OpDeny(key) && forall i :: d < i < n ==> events[i].op != OpDeny(key)
  }

  /** A success whose snapshot was taken after the denial has come in before `n`. */
  ghost predicate ClearedSince(events: seq<Event>, d: nat, n: nat, key: Key) {
    exists c :: d < c < n <= |events| && events[c].op.OpClear? && events[c].op.key == key && events[c].op.snapshot > d
  }

  /** The last denial of the key is not expired at `now` and was not cleared. */
  ghost predicate Guarded(events: seq<Event>, n: nat, key: Key, now: int) {
    exists d: nat :: LastDenial(events, n, key, d) && now < events[d].now + 120000000000 && !ClearedSince(events, d, n, key)
  }

  /** How many of the first `n` events were denials. */
  function Denials(events: seq<Event>, n: nat): nat
    requires n <= |events|
  {
    if n == 0 then 0 else Denials(events, n - 1) + (if events[n - 1].op.OpDeny? then 1 else 0)
  }

  function Brings(events: seq<Event>, n: nat): nat
    requires n < |events|
  {
    if events[n].op.OpClear? && events[n].op.snapshot < n then SnapshotOf(events, events[n].op.snapshot) else 0
  }

  lemma AfterNext(events: seq<Event>, n: nat)
    requires n < |events|
    ensures After(events, n + 1) == Apply(After(events, n), events[n], Brings(events, n))
  {
  }

  lemma {:induction false} GenerationCounts(events: seq<Event>, n: nat)
    requires n <= |events|
    ensures After(events, n).generation == Denials(events, n)
  {
    if n > 0 {
      GenerationCounts(events, n - 1);
      AfterNext(events, n - 1);
    }
  }

  lemma {:induction false} DenialsGrow(events: seq<Event>, i: nat, j: nat)
    requires i <= j <= |events|
    ensures Denials(events, i) <= Denials(events, j)
  {
    if i < j {
      DenialsGrow(events, i, j - 1);
    }
  }

  /** What one event does to the guard of a key. */
  lemma GuardNext(s: State, e: Event, g: nat, key: Key)
    ensures var s' := Apply(s, e, g);
      if e.op == OpDeny(key) then key in s'.guards && s'.guards[key] == Guard(s.generation + 1, e.now + TTL)
      else if key !in s.guards || s.guards[key].expiresAt <= e.now then key !in s'.guards
      else if e.op.OpClear? && e.op.key == key && g != 0 && g == s.guards[key].generation then key !in s'.guards
      else key in s'.guards && s'.guards[key] == s.guards[key]
  {
  }

  /** While the last denial is neither expired nor cleared, its guard stands, numbered by the denials so far. */
  lemma {:induction false} GuardStands(events: seq<Event>, n: nat, key: Key, d: nat)
    requires Sound(events) && LastDenial(events, n, key, d) && !ClearedSince(events, d, n, key)
    requires events[n - 1].now < events[d].now + TTL
    ensures key in After(events, n).guards
    ensures After(events, n).guards[key] == Guard(Denials(events, d + 1), events[d].now + TTL)
    decreases n
  {
    hide After, SnapshotOf;
    AfterNext(events, n - 1);
    GuardNext(After(events, n - 1), events[n - 1], Brings(events, n - 1), key);
    if d == n - 1 {
      GenerationCounts(events, d);
    } else {
      GuardStands(events, n - 1, key, d);
      if events[n - 1].op.OpClear? && events[n - 1].op.key == key {
        NotCleared(events, n - 1, key, d);
      }
    }
    hide Apply;
  }

  /** A clearing whose snapshot came before a denial brings an older number. */
  lemma NotCleared(events: seq<Event>, n: nat, key: Key, d: nat)
    requires Sound(events) && n < |events| && LastDenial(events, n, key, d)
    requires !ClearedSince(events, d, n + 1, key) && events[n].op.OpClear? && events[n].op.key == key
    ensures Brings(events, n) < Denials(events, d + 1)
  {
    var k := events[n].op.snapshot;
    assert k < d;
    AfterIsNumbered(events, k);
    GenerationCounts(events, k);
    DenialsGrow(events, k, d);
  }

  /** A clearing whose snapshot came after it brings its own. */
  lemma IsCleared(events: seq<Event>, n: nat, key: Key, d: nat)
    requires Sound(events) && n < |events| && LastDenial(events, n, key, d) && !ClearedSince(events, d, n, key)
    requires events[n].op.OpClear? && events[n].op.key == key && events[n].op.snapshot > d
    requires events[n].now < events[d].now + TTL
    ensures Brings(events, n) == Denials(events, d + 1) > 0
  {
    var k := events[n].op.snapshot;
    GuardStands(events, k, key, d);
  }

  /** A guard that an event leaves standing was not cleared by it. */
  lemma StaysUncleared(events: seq<Event>, n: nat, key: Key, d: nat)
    requires Sound(events) && n < |events| && LastDenial(events, n, key, d) && !ClearedSince(events, d, n, key)
    requires events[n].op != OpDeny(key) && events[n].now < events[d].now + TTL
    requires events[n].op.OpClear? && events[n].op.key == key ==> Brings(events, n) != Denials(events, d + 1)
    ensures LastDenial(events, n + 1, key, d) && !ClearedSince(events, d, n + 1, key)
  {
    if events[n].op.OpClear? && events[n].op.key == key && events[n].op.snapshot > d {
      IsCleared(events, n, key, d);
    }
    hide Brings, Denials, Sound;
  }

  /** A guard that stands is that of the last denial, which was not cleared. */
  lemma {:induction false} GuardHasCause(events: seq<Event>, n: nat, key: Key) returns (d: nat)
    requires Sound(events) && n <= |events| && key in After(events, n).guards
    ensures LastDenial(events, n, key, d) && !ClearedSince(events, d, n, key)
    ensures events[n - 1].now < events[d].now + TTL
    ensures After(events, n).guards[key] == Guard(Denials(events, d + 1), events[d].now + TTL)
  {
    assert n > 0;
    hide After, SnapshotOf, Apply, Brings, Sound;
    var e := events[n - 1];
    AfterNext(events, n - 1);
    GuardNext(After(events, n - 1), e, Brings(events, n - 1), key);
    if e.op == OpDeny(key) {
      d := n - 1;
      GenerationCounts(events, d);
    } else {
      hide Denials;
      d := GuardHasCause(events, n - 1, key);
      NotZero(events, d);
      StaysUncleared(events, n - 1, key, d);
    }
  }

  lemma NotZero(events: seq<Event>, d: nat)
    requires d < |events| && events[d].op.OpDeny?
    ensures Denials(events, d + 1) > 0
  {
  }

  lemma GuardedExactly(events: seq<Event>, n: nat, key: Key, now: int)
    requires Sound(events) && n <= |events| && (n > 0 ==> events[n - 1].now <= now)
    ensures Guarded(events, n, key, now) <==> key in After(events, n).guards && now < After(events, n).guards[key].expiresAt
  {
    hide After, Sound, ClearedSince;
    if Guarded(events, n, key, now) {
      var d: nat :| LastDenial(events, n, key, d) && now < events[d].now + TTL && !ClearedSince(events, d, n, key);
      GuardStands(events, n, key, d);
    }
    if key in After(events, n).guards && now < After(events, n).guards[key].expiresAt {
      var d := GuardHasCause(events, n, key);
    }
  }

  /** A report is suppressed exactly while the key's last denial is neither expired nor cleared by a success that
      began after it. */
  lemma SuppressedExactly(events: seq<Event>, n: nat, key: Key)
    requires Sound(events) && n < |events| && events[n].op == OpSuppress(key)
    ensures Suppress(After(events, n), key, events[n].now).1 <==> Guarded(events, n, key, events[n].now)
  {
    GuardedExactly(events, n, key, events[n].now);
    hide After, Guarded;
  }

  /** A snapshot answers the number of that denial, or zero. */
  lemma SnapshotExactly(events: seq<Event>, n: nat, key: Key)
    requires Sound(events) && n < |events| && events[n].op == OpSnapshot(key)
    ensures SnapshotOf(events, n) != 0 <==> Guarded(events, n, key, events[n].now)
    ensures forall d: nat :: LastDenial(events, n, key, d) && SnapshotOf(events, n) != 0 ==> SnapshotOf(events, n) == Denials(events, d + 1)
  {
    GuardedExactly(events, n, key, events[n].now);
    AfterIsNumbered(events, n);
    if SnapshotOf(events, n) != 0 {
      var c := GuardHasCause(events, n, key);
      GuardStands(events, n, key, c);
    }
    hide After, Guarded, Denials, Sound, ClearedSince;
  }

  // ---- exactly which events are audited -------------------------------------------------------

  /** The event is one that could be audited under `a`: a denial, or a report that is suppressed. */
  ghost predicate Auditable(events: seq<Event>, n: nat, a: AuditKey)
    requires n < |events|
  {
    match a.kind
    case Denied => events[n].op == OpDeny(a.key)
    case Suppressed => events[n].op == OpSuppress(a.key) && Guarded(events, n, a.key, events[n].now)
  }

  lemma CooldownNext(events: seq<Event>, n: nat, a: AuditKey)
    requires n < |events| && a in After(events, n + 1).cooldowns
    ensures if AuditedAt(events, n, a) then After(events, n + 1).cooldowns[a] == events[n].now + COOLDOWN
      else a in After(events, n).cooldowns && After(events, n + 1).cooldowns[a] == After(events, n).cooldowns[a]
  {
    AfterNext(events, n);
    hide After, SnapshotOf;
  }

  /** A cooldown that stands was set by an audited event. */
  lemma {:induction false} CooldownHasCause(events: seq<Event>, n: nat, a: AuditKey) returns (i: nat)
    requires n <= |events| && a in After(events, n).cooldowns
    ensures i < n && AuditedAt(events, i, a) && After(events, n).cooldowns[a] == events[i].now + COOLDOWN
  {
    assert n > 0;
    hide After, SnapshotOf, AuditedAt;
    CooldownNext(events, n - 1, a);
    if AuditedAt(events, n - 1, a) {
      i := n - 1;
    } else {
      i := CooldownHasCause(events, n - 1, a);
    }
  }

  /** An event is audited exactly if it can be and none of its key and kind was within the cooldown before it. */
  lemma AuditedExactly(events: seq<Event>, n: nat, a: AuditKey)
    requires Sound(events) && n < |events|
    ensures AuditedAt(events, n, a) <==>
      && Auditable(events, n, a)
      && forall i :: 0 <= i < n && AuditedAt(events, i, a) ==> events[i].now + 120000000000 <= events[n].now
  {
    forall i | 0 <= i < n && AuditedAt(events, i, a) && AuditedAt(events, n, a)
      ensures events[i].now + COOLDOWN <= events[n].now
    {
      AuditsAreApart(events, i, n, a);
    }
    GuardedExactly(events, n, a.key, events[n].now);
    if Auditable(events, n, a) && !AuditedAt(events, n, a) {
      hide Guarded;
      NotAuditedIsCooling(events, n, a);
      var i := CooldownHasCause(events, n, a);
    }
    hide After, Guarded;
  }

  /** The two operations audit unless their cooldown stands. */
  lemma AuditsUnlessCooling(s: State, key: Key, now: int)
    ensures Deny(s, key, now).1
      <==> !(AuditKey(key, Denied) in s.cooldowns && now < s.cooldowns[AuditKey(key, Denied)])
    ensures Suppress(s, key, now).2
      <==> key in s.guards && now < s.guards[key].expiresAt
           && !(AuditKey(key, Suppressed) in s.cooldowns && now < s.cooldowns[AuditKey(key, Suppressed)])
  {
  }

  lemma NotAuditedIsCooling(events: seq<Event>, n: nat, a: AuditKey)
    requires Sound(events) && n < |events| && Auditable(events, n, a) && !AuditedAt(events, n, a)
    ensures a in After(events, n).cooldowns && events[n].now < After(events, n).cooldowns[a]
  {
    hide After, Guarded, Deny, Suppress, Sound;
    AuditsUnlessCooling(After(events, n), a.key, events[n].now);
    assert a == AuditKey(a.key, a.kind);
    if a.kind.Suppressed? {
      assert n > 0 ==> events[n - 1].now <= events[n].now by { ClockGoesOn(events, n); }
      GuardedExactly(events, n, a.key, events[n].now);
    }
  }

  lemma ClockGoesOn(events: seq<Event>, n: nat)
    requires Sound(events) && n < |events|
    ensures n > 0 ==> events[n - 1].now <= events[n].now
  {
  }
}

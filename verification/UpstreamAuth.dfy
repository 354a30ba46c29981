/**
 Rotation of the upstream credentials by any number of leaders, next to other writers of the stored tuple.
 */
module UpstreamAuth {
  import opened Wrappers

  // The program is `internal/gateway/upstream_auth.go`. Strings are numbers here, 0 being the empty one. Every
  // login yields a token, and every writer a generation, that was never issued before. Steps of all leaders and
  // writers interleave freely: leaders load the tuple, log in, swap the new one in by the generation that they
  // expect, and log out what is left; other writers replace the tuple as a whole.

  /** The four fields of the stored source that a rotation replaces together. */
  datatype Auth = Auth(generation: nat, device: nat, user: nat, token: nat)

  datatype Update = Update(expected: nat, auth: Auth)

  datatype Error = ErrCanceled | ErrStore | ErrLogin | ErrIdentifiers | ErrCollision | ErrConflict | ErrMismatch

  datatype Answer = Ok(auth: Auth) | Err(error: Error)

  datatype LeaderAt =
    | Starting
    | Loaded(before: Auth)
    | LoggingIn(before: Auth, device: nat, generation: nat)
    | LoginFailed(before: Auth, token: nat, error: Error)
    | LoggedIn(before: Auth, update: Update)
    | SwapFailed(before: Auth, update: Update, conflict: bool)
    | Swapped(before: Auth, update: Update)
    | Retiring(before: Auth, answer: Answer)
    | LoggingOut(token: nat, answer: Answer)
    | Done(answer: Answer)

  /** A caller's intent: any session, or one whose token is not `failed`. */
  datatype Intent = Ensure | Refresh(failed: nat)

  datatype Leader = Leader(intent: Intent, at: LeaderAt)

  /** One replacement of the stored tuple; `expected` is there when a leader made it. */
  datatype Commit = Commit(auth: Auth, expected: Option<nat>)

  /** `issued` and `generations` say to whom each token and generation was handed out; 0 is any other writer. */
  datatype State = State(
    cell: Auth, leaders: map<nat, Leader>,
    issued: map<nat, nat>, generations: map<nat, nat>,
    history: seq<Commit>, loggedOut: set<nat>)

  predicate Satisfied(auth: Auth, intent: Intent) {
    auth.generation != 0 && (intent.Refresh? ==> auth.token != intent.failed)
  }

  predicate Owns(auth: Auth, update: Update) {
    auth == update.auth
  }

  function Initial(auth: Auth): State {
    State(auth, map[], map[auth.token := 0], map[auth.generation := 0], [Commit(auth, None)], {})
  }

  // ---- steps ----------------------------------------------------------------------------------

  datatype Move =
    | Begin(intent: Intent)
    | Load | LoadFails(canceled: bool)
    | Identify(device: nat, generation: nat) | IdentifyFails
    | LogIn(user: nat, token: nat) | LogInFails(token: nat)
    | Cancel
    | Swap | SwapConflicts | SwapErrs | SwapAppliedErrs
    | CleanUp | CleanUpLoadFails
    | Reload | ReloadFails
    | CheckOld | CheckOldFails
    | LogOut | SkipLogOut
    | Foreign(auth: Auth)

  function To(s: State, l: nat, at: LeaderAt): State
    requires l in s.leaders
  {
    s.(leaders := s.leaders[l := s.leaders[l].(at := at)])
  }

  /** The store takes the new tuple. */
  function Store(s: State, auth: Auth, expected: Option<nat>): State {
    s.(cell := auth, history := s.history + [Commit(auth, expected)])
  }

  /** Whether a left-over login is to be logged out, given what the store holds now. */
  predicate Leftover(token: nat, before: Auth, current: Auth) {
    token != 0 && token != before.token && current.token != token
  }

  /** After a failed swap: what the leader answers and what it still cleans up. */
  function AfterSwapFailed(before: Auth, update: Update, conflict: bool, current: Auth): LeaderAt {
    var answer := if conflict then Ok(current) else Err(ErrStore);
    if Owns(current, update) then Done(Ok(current))
    else if Leftover(update.auth.token, before, current) then LoggingOut(update.auth.token, answer)
    else Done(answer)
  }

  function AfterSwapped(before: Auth, update: Update, current: Auth): LeaderAt {
    if Owns(current, update) then Retiring(before, Ok(current))
    else if current.generation != update.expected && current.generation != update.auth.generation then Done(Ok(current))
    else Done(Err(ErrMismatch))
  }

  ghost predicate Step(s: State, l: nat, m: Move, s': State) {
    match m
    case Foreign(auth) =>
      && auth.token != 0 && auth.generation != 0
      && auth.token !in s.issued && auth.generation !in s.generations
      && s' == Store(s, auth, None).(issued := s.issued[auth.token := 0], generations := s.generations[auth.generation := 0])
    case Begin(intent) =>
      && l != 0 && l !in s.leaders
      && s' == s.(leaders := s.leaders[l := Leader(intent, Starting)])
    case _ => l in s.leaders && LeaderStep(s, l, m, s')
  }

  ghost predicate LeaderStep(s: State, l: nat, m: Move, s': State)
    requires l in s.leaders
  {
    var at := s.leaders[l].at;
    match m
    case Load => at.Starting? && s' == To(s, l, if Satisfied(s.cell, s.leaders[l].intent) then Done(Ok(s.cell)) else Loaded(s.cell))
    case LoadFails(canceled) => at.Starting? && s' == To(s, l, Done(Err(if canceled then ErrCanceled else ErrStore)))
    case Identify(device, generation) =>
      && at.Loaded? && device != at.before.device && generation != at.before.generation
      && generation != 0 && generation !in s.generations
      && s' == To(s, l, LoggingIn(at.before, device, generation)).(generations := s.generations[generation := l])
    case IdentifyFails => at.Loaded? && s' == To(s, l, Done(Err(ErrIdentifiers)))
    case LogIn(user, token) =>
      && at.LoggingIn? && token != 0 && token !in s.issued
      && var update := Update(at.before.generation, Auth(at.generation, at.device, user, token));
        s' == To(s, l, if token == at.before.token then Done(Err(ErrCollision)) else LoggedIn(at.before, update))
              .(issued := s.issued[token := l])
    case LogInFails(token) =>
      && at.LoggingIn? && (token != 0 ==> token !in s.issued)
      && s' == To(s, l, LoginFailed(at.before, token, ErrLogin))
              .(issued := if token == 0 then s.issued else s.issued[token := l])
    case Cancel => at.LoggedIn? && s' == To(s, l, LoginFailed(at.before, at.update.auth.token, ErrCanceled))
    case CleanUp =>
      && at.LoginFailed?
      && s' == To(s, l, if Leftover(at.token, at.before, s.cell) then LoggingOut(at.token, Err(at.error)) else Done(Err(at.error)))
    case CleanUpLoadFails => at.LoginFailed? && s' == To(s, l, Done(Err(at.error)))
    case Swap =>
      && at.LoggedIn? && s.cell.generation == at.update.expected
      && s' == To(Store(s, at.update.auth, Some(at.update.expected)), l, Swapped(at.before, at.update))
    case SwapConflicts =>
      at.LoggedIn? && s.cell.generation != at.update.expected && s' == To(s, l, SwapFailed(at.before, at.update, true))
    case SwapErrs => at.LoggedIn? && s' == To(s, l, SwapFailed(at.before, at.update, false))
    case SwapAppliedErrs =>
      && at.LoggedIn? && s.cell.generation == at.update.expected
      && s' == To(Store(s, at.update.auth, Some(at.update.expected)), l, SwapFailed(at.before, at.update, false))
    case Reload =>
      if at.SwapFailed? then s' == To(s, l, AfterSwapFailed(at.before, at.update, at.conflict, s.cell))
      else at.Swapped? && s' == To(s, l, AfterSwapped(at.before, at.update, s.cell))
    case ReloadFails => (at.SwapFailed? || at.Swapped?) && s' == To(s, l, Done(Err(ErrStore)))
    case CheckOld =>
      && at.Retiring?
      && s' == To(s, l, if at.before.generation != 0 && at.before.token != 0 && s.cell.token != at.before.token
                        then LoggingOut(at.before.token, at.answer) else Done(at.answer))
    case CheckOldFails => at.Retiring? && s' == To(s, l, Done(at.answer))
    case LogOut => at.LoggingOut? && s' == To(s, l, Done(at.answer)).(loggedOut := s.loggedOut + {at.token})
    case SkipLogOut => at.LoggingOut? && s' == To(s, l, Done(at.answer))
    case _ => false
  }

  // ---- the invariant --------------------------------------------------------------------------

  ghost predicate HeldToken(history: seq<Commit>, token: nat) {
    exists i :: 0 <= i < |history| && history[i].auth.token == token
  }

  ghost predicate HeldGeneration(history: seq<Commit>, generation: nat) {
    exists i :: 0 <= i < |history| && history[i].auth.generation == generation
  }

  ghost predicate WasStored(history: seq<Commit>, auth: Auth) {
    exists i :: 0 <= i < |history| && history[i].auth == auth
  }

  /** The token a leader has logged in with and may still store. */
  function Storable(at: LeaderAt): Option<nat> {
    if at.LoggedIn? then Some(at.update.auth.token) else None
  }

  /** The store does not hold this token and never will. */
  ghost predicate Dead(s: State, token: nat) {
    && token in s.issued && s.cell.token != token
    && (forall l :: l in s.leaders ==> Storable(s.leaders[l].at) != Some(token))
  }

  ghost predicate Linked(history: seq<Commit>) {
    forall i :: 0 < i < |history| && history[i].expected.Some? ==> history[i].expected.value == history[i - 1].auth.generation
  }

  ghost predicate Chained(s: State) {
    && |s.history| > 0 && s.history[|s.history| - 1].auth == s.cell
    && Linked(s.history)
    && (forall i, j :: 0 <= i < j < |s.history| ==>
      s.history[i].auth.generation != s.history[j].auth.generation && s.history[i].auth.token != s.history[j].auth.token)
    && (forall i :: 0 <= i < |s.history| ==>
      s.history[i].auth.token in s.issued && s.history[i].auth.generation in s.generations
      && s.issued[s.history[i].auth.token] == s.generations[s.history[i].auth.generation])
  }

  ghost predicate LeaderOk(s: State, l: nat, at: LeaderAt) {
    match at
    case Starting => true
    case Loaded(before) => WasStored(s.history, before)
    case LoggingIn(before, _, generation) =>
      && WasStored(s.history, before) && generation != 0
      && generation in s.generations && s.generations[generation] == l && !HeldGeneration(s.history, generation)
    case LoginFailed(_, token, _) =>
      token != 0 ==> token in s.issued && s.issued[token] == l && !HeldToken(s.history, token)
    case LoggedIn(before, update) =>
      && WasStored(s.history, before) && update.expected == before.generation
      && update.auth.token in s.issued && s.issued[update.auth.token] == l && !HeldToken(s.history, update.auth.token)
      && update.auth.generation in s.generations && s.generations[update.auth.generation] == l
      && !HeldGeneration(s.history, update.auth.generation)
      && update.auth.token != before.token && update.auth.generation != 0
    case SwapFailed(before, update, _) =>
      update.auth.token in s.issued && s.issued[update.auth.token] == l
    case Swapped(before, update) => WasStored(s.history, before) && WasStored(s.history, update.auth) && before != update.auth
    case Retiring(before, answer) => WasStored(s.history, before) && AnswerOk(s, answer)
    case LoggingOut(token, answer) => Dead(s, token) && AnswerOk(s, answer)
    case Done(answer) => AnswerOk(s, answer)
  }

  ghost predicate AnswerOk(s: State, answer: Answer) {
    answer.Ok? ==> WasStored(s.history, answer.auth)
  }

  ghost predicate Inv(s: State) {
    && Chained(s)
    && 0 !in s.leaders
    && (forall l :: l in s.leaders ==> LeaderOk(s, l, s.leaders[l].at))
    && (forall t :: t in s.loggedOut ==> Dead(s, t))
  }

  lemma InitialInv(auth: Auth)
    ensures Inv(Initial(auth))
  {
  }

  // ---- storing a tuple ------------------------------------------------------------------------

  lemma HistoryGrows(h: seq<Commit>, c: Commit)
    ensures forall t :: HeldToken(h + [c], t) <==> HeldToken(h, t) || t == c.auth.token
    ensures forall g :: HeldGeneration(h + [c], g) <==> HeldGeneration(h, g) || g == c.auth.generation
    ensures forall a :: WasStored(h + [c], a) <==> WasStored(h, a) || a == c.auth
  {
    var h' := h + [c];
    forall t
      ensures HeldToken(h', t) <==> HeldToken(h, t) || t == c.auth.token
    {
      if HeldToken(h, t) {
        var i :| 0 <= i < |h| && h[i].auth.token == t;
        assert h'[i].auth.token == t;
      }
      assert h'[|h|] == c;
    }
    forall g
      ensures HeldGeneration(h', g) <==> HeldGeneration(h, g) || g == c.auth.generation
    {
      if HeldGeneration(h, g) {
        var i :| 0 <= i < |h| && h[i].auth.generation == g;
        assert h'[i].auth.generation == g;
      }
      assert h'[|h|] == c;
    }
    forall a
      ensures WasStored(h', a) <==> WasStored(h, a) || a == c.auth
    {
      if WasStored(h, a) {
        var i :| 0 <= i < |h| && h[i].auth == a;
        assert h'[i].auth == a;
      }
      assert h'[|h|] == c;
    }
  }

  lemma StoreKeepsChained(s: State, auth: Auth, expected: Option<nat>)
    requires Chained(s) && auth.token in s.issued && auth.generation in s.generations
    requires s.issued[auth.token] == s.generations[auth.generation]
    requires !HeldToken(s.history, auth.token) && !HeldGeneration(s.history, auth.generation)
    requires expected.Some? ==> expected.value == s.cell.generation
    ensures Chained(Store(s, auth, expected))
  {
    var h' := s.history + [Commit(auth, expected)];
    forall i, j | 0 <= i < j < |h'|
      ensures h'[i].auth.generation != h'[j].auth.generation && h'[i].auth.token != h'[j].auth.token
    {
      assert h'[i] == s.history[i];
    }
  }

  /** What a step must respect so that the facts about the other leaders stay. */
  ghost predicate Extends(s: State, s': State, l: nat) {
    && (forall t :: t in s.issued ==> t in s'.issued && s'.issued[t] == s.issued[t])
    && (forall g :: g in s.generations ==> g in s'.generations && s'.generations[g] == s.generations[g])
    && (forall a :: WasStored(s.history, a) ==> WasStored(s'.history, a))
    && (forall t :: HeldToken(s'.history, t) ==> HeldToken(s.history, t) || t !in s.issued || s.issued[t] == l)
    && (forall g :: HeldGeneration(s'.history, g) ==> HeldGeneration(s.history, g) || g !in s.generations || s.generations[g] == l)
    && (forall x :: x in s.leaders && x != l ==> x in s'.leaders && s'.leaders[x] == s.leaders[x])
    && (forall x :: x in s'.leaders && x != l ==> x in s.leaders)
  }

  /** Dead tokens stay dead. */
  lemma DeadStays(s: State, s': State, l: nat, t: nat)
    requires Dead(s, t) && Extends(s, s', l)
    requires s'.cell.token == s.cell.token || s'.cell.token !in s.issued
          || (l in s.leaders && Storable(s.leaders[l].at) == Some(s'.cell.token))
    requires l in s'.leaders ==>
      var u := Storable(s'.leaders[l].at);
      u.None? || u.value !in s.issued || (l in s.leaders && Storable(s.leaders[l].at) == u)
    ensures Dead(s', t)
  {
    forall x | x in s'.leaders
      ensures Storable(s'.leaders[x].at) != Some(t)
    {
      if x != l {
        assert s'.leaders[x] == s.leaders[x];
      }
    }
  }

  lemma OthersStayOk(s: State, s': State, l: nat, x: nat)
    requires Extends(s, s', l) && x in s.leaders && x != l && LeaderOk(s, x, s.leaders[x].at)
    requires s.leaders[x].at.LoggingOut? ==> Dead(s', s.leaders[x].at.token)
    ensures LeaderOk(s', x, s.leaders[x].at)
  {
  }

  ghost predicate Quiet(s: State, s': State, l: nat) {
    && (s'.cell.token == s.cell.token || s'.cell.token !in s.issued
        || (l in s.leaders && Storable(s.leaders[l].at) == Some(s'.cell.token)))
    && (l in s'.leaders ==>
        var u := Storable(s'.leaders[l].at);
        u.None? || u.value !in s.issued || (l in s.leaders && Storable(s.leaders[l].at) == u))
  }

  /** The common part of every step: other leaders and dead tokens are left alone. */
  lemma StepFrame(s: State, s': State, l: nat)
    requires Inv(s) && Extends(s, s', l) && Quiet(s, s', l)
    requires Chained(s') && 0 !in s'.leaders
    requires l in s'.leaders ==> LeaderOk(s', l, s'.leaders[l].at)
    requires forall t :: t in s'.loggedOut ==> t in s.loggedOut || Dead(s, t)
    ensures Inv(s')
  {
    forall x | x in s'.leaders && x != l
      ensures LeaderOk(s', x, s'.leaders[x].at)
    {
      if s.leaders[x].at.LoggingOut? {
        DeadStays(s, s', l, s.leaders[x].at.token);
      }
      OthersStayOk(s, s', l, x);
    }
    forall t | t in s'.loggedOut
      ensures Dead(s', t)
    {
      DeadStays(s, s', l, t);
    }
  }

  // ---- every step keeps it --------------------------------------------------------------------

  lemma BeginKeepsInv(s: State, l: nat, m: Move, s': State)
    requires Inv(s) && m.Begin? && Step(s, l, m, s')
    ensures Inv(s')
  {
    hide LeaderStep, HeldToken, HeldGeneration, WasStored, Linked;
    StepFrame(s, s', l);
  }

  lemma IssuedAreFresh(s: State, token: nat, generation: nat)
    requires Chained(s)
    ensures token !in s.issued ==> !HeldToken(s.history, token)
    ensures generation !in s.generations ==> !HeldGeneration(s.history, generation)
  {
  }

  lemma ForeignKeepsInv(s: State, l: nat, m: Move, s': State)
    requires Inv(s) && m.Foreign? && Step(s, l, m, s')
    ensures Inv(s')
  {
    var auth := m.auth;
    var t := s.(issued := s.issued[auth.token := 0], generations := s.generations[auth.generation := 0]);
    ChainedIgnoresLeaders(s, t);
    IssuedAreFresh(s, auth.token, auth.generation);
    StoreKeepsChained(t, auth, None);
    HistoryGrows(s.history, Commit(auth, None));
    hide LeaderStep, HeldToken, HeldGeneration, WasStored, Linked, Chained, LeaderOk;
    StepFrame(s, s', 0);
  }

  lemma CellIsStored(s: State)
    requires Chained(s)
    ensures WasStored(s.history, s.cell) && HeldToken(s.history, s.cell.token) && HeldGeneration(s.history, s.cell.generation)
  {
    var n := |s.history| - 1;
    assert s.history[n].auth == s.cell;
  }

  lemma StoredIsHeld(history: seq<Commit>, auth: Auth)
    requires WasStored(history, auth)
    ensures HeldToken(history, auth.token) && HeldGeneration(history, auth.generation)
  {
  }

  /** Generations tell tuples apart. */
  lemma SameGeneration(s: State, a: Auth, b: Auth)
    requires Chained(s) && WasStored(s.history, a) && WasStored(s.history, b) && a.generation == b.generation
    ensures a == b
  {
  }

  lemma InvParts(s: State, l: nat)
    requires Inv(s)
    ensures Chained(s) && 0 !in s.leaders
    ensures l in s.leaders ==> LeaderOk(s, l, s.leaders[l].at)
  {
  }

  /** Moving a leader on, with the store and the issued names as they are. */
  lemma MoveTo(s: State, l: nat, at: LeaderAt)
    requires Inv(s) && l in s.leaders && LeaderOk(s, l, at)
    requires Storable(at).None? || Storable(at) == Storable(s.leaders[l].at)
    ensures Inv(To(s, l, at))
  {
    var s' := To(s, l, at);
    InvParts(s, l);
    hide HeldToken, HeldGeneration, WasStored, Linked, Chained;
    ChainedIgnoresLeaders(s, s');
    forall t | Dead(s, t)
      ensures Dead(s', t)
    {
    }
    StepFrame(s, s', l);
  }

  lemma ChainedIgnoresLeaders(s: State, s': State)
    requires Chained(s) && s'.cell == s.cell && s'.history == s.history
    requires forall t :: t in s.issued ==> t in s'.issued && s'.issued[t] == s.issued[t]
    requires forall g :: g in s.generations ==> g in s'.generations && s'.generations[g] == s.generations[g]
    ensures Chained(s')
  {
  }

  lemma LoadKeepsInv(s: State, l: nat, m: Move, s': State)
    requires Inv(s) && l in s.leaders && LeaderStep(s, l, m, s')
    requires m.Load? || m.LoadFails? || m.IdentifyFails?
    ensures Inv(s')
  {
    InvParts(s, l);
    CellIsStored(s);
    hide Inv, Chained, WasStored;
    MoveTo(s, l, s'.leaders[l].at);
  }

  lemma IdentifyKeepsInv(s: State, l: nat, m: Move, s': State)
    requires Inv(s) && l in s.leaders && m.Identify? && LeaderStep(s, l, m, s')
    ensures Inv(s')
  {
    InvParts(s, l);
    IssuedAreFresh(s, 0, m.generation);
    ChainedIgnoresLeaders(s, s');
    hide Inv, Chained, WasStored, HeldToken, HeldGeneration;
    StepFrame(s, s', l);
  }

  lemma LogInKeepsInv(s: State, l: nat, m: Move, s': State)
    requires Inv(s) && l in s.leaders && m.LogIn? && LeaderStep(s, l, m, s')
    ensures Inv(s')
  {
    InvParts(s, l);
    IssuedAreFresh(s, m.token, 0);
    ChainedIgnoresLeaders(s, s');
    hide Inv, Chained, WasStored, HeldToken, HeldGeneration;
    StepFrame(s, s', l);
  }

  lemma LogInFailsKeepsInv(s: State, l: nat, m: Move, s': State)
    requires Inv(s) && l in s.leaders && m.LogInFails? && LeaderStep(s, l, m, s')
    ensures Inv(s')
  {
    InvParts(s, l);
    IssuedAreFresh(s, m.token, 0);
    ChainedIgnoresLeaders(s, s');
    hide Inv, Chained, WasStored, HeldToken, HeldGeneration;
    StepFrame(s, s', l);
  }

  lemma OnlyOneStores(s: State, l: nat, token: nat)
    requires Inv(s) && l in s.leaders && token in s.issued && s.issued[token] == l && Storable(s.leaders[l].at).None?
    ensures forall x :: x in s.leaders ==> Storable(s.leaders[x].at) != Some(token)
  {
    forall x | x in s.leaders
      ensures Storable(s.leaders[x].at) != Some(token)
    {
      assert LeaderOk(s, x, s.leaders[x].at);
    }
  }

  lemma CleanUpKeepsInv(s: State, l: nat, m: Move, s': State)
    requires Inv(s) && l in s.leaders && LeaderStep(s, l, m, s')
    requires m.Cancel? || m.CleanUp? || m.CleanUpLoadFails?
    ensures Inv(s')
  {
    InvParts(s, l);
    if m.CleanUp? && s.leaders[l].at.token != 0 {
      OnlyOneStores(s, l, s.leaders[l].at.token);
    }
    hide Inv, Chained, WasStored, HeldToken, HeldGeneration;
    MoveTo(s, l, s'.leaders[l].at);
  }

  /** A swap that goes through replaces exactly the tuple that its leader loaded. */
  lemma SwapReplacesLoaded(s: State, l: nat)
    requires Inv(s) && l in s.leaders && s.leaders[l].at.LoggedIn?
    ensures s.cell.generation == s.leaders[l].at.update.expected <==> s.cell == s.leaders[l].at.before
  {
    assert LeaderOk(s, l, s.leaders[l].at);
    CellIsStored(s);
    if s.cell.generation == s.leaders[l].at.update.expected {
      SameGeneration(s, s.cell, s.leaders[l].at.before);
    }
  }

  lemma SwapKeepsInv(s: State, l: nat, m: Move, s': State)
    requires Inv(s) && l in s.leaders && LeaderStep(s, l, m, s')
    requires m.Swap? || m.SwapAppliedErrs?
    ensures Inv(s')
  {
    var at := s.leaders[l].at;
    InvParts(s, l);
    StoreKeepsChained(s, at.update.auth, Some(at.update.expected));
    HistoryGrows(s.history, Commit(at.update.auth, Some(at.update.expected)));
    ChainedIgnoresLeaders(Store(s, at.update.auth, Some(at.update.expected)), s');
    hide Inv, Chained, WasStored, HeldToken, HeldGeneration;
    StepFrame(s, s', l);
  }

  lemma SwapFailsKeepsInv(s: State, l: nat, m: Move, s': State)
    requires Inv(s) && l in s.leaders && LeaderStep(s, l, m, s')
    requires m.SwapConflicts? || m.SwapErrs?
    ensures Inv(s')
  {
    InvParts(s, l);
    hide Inv, Chained, WasStored, HeldToken, HeldGeneration;
    MoveTo(s, l, s'.leaders[l].at);
  }

  lemma ReloadKeepsInv(s: State, l: nat, m: Move, s': State)
    requires Inv(s) && l in s.leaders && LeaderStep(s, l, m, s')
    requires m.Reload? || m.ReloadFails?
    ensures Inv(s')
  {
    var at := s.leaders[l].at;
    InvParts(s, l);
    CellIsStored(s);
    if at.SwapFailed? {
      OnlyOneStores(s, l, at.update.auth.token);
    }
    hide Inv, Chained, WasStored, HeldToken, HeldGeneration;
    MoveTo(s, l, s'.leaders[l].at);
  }

  /** A token that was once stored cannot be stored again. */
  lemma HeldIsNotStorable(s: State, token: nat)
    requires Inv(s) && HeldToken(s.history, token)
    ensures token in s.issued && forall x :: x in s.leaders ==> Storable(s.leaders[x].at) != Some(token)
  {
    forall x | x in s.leaders
      ensures Storable(s.leaders[x].at) != Some(token)
    {
      assert LeaderOk(s, x, s.leaders[x].at);
    }
  }

  lemma RetireKeepsInv(s: State, l: nat, m: Move, s': State)
    requires Inv(s) && l in s.leaders && LeaderStep(s, l, m, s')
    requires m.CheckOld? || m.CheckOldFails? || m.SkipLogOut?
    ensures Inv(s')
  {
    var at := s.leaders[l].at;
    InvParts(s, l);
    if m.CheckOld? {
      StoredIsHeld(s.history, at.before);
      HeldIsNotStorable(s, at.before.token);
    }
    hide Inv, Chained, WasStored, HeldToken, HeldGeneration;
    MoveTo(s, l, s'.leaders[l].at);
  }

  lemma LogOutKeepsInv(s: State, l: nat, m: Move, s': State)
    requires Inv(s) && l in s.leaders && m.LogOut? && LeaderStep(s, l, m, s')
    ensures Inv(s')
  {
    InvParts(s, l);
    ChainedIgnoresLeaders(s, s');
    hide Inv, Chained, WasStored, HeldToken, HeldGeneration;
    StepFrame(s, s', l);
  }

  lemma StepKeepsInv(s: State, l: nat, m: Move, s': State)
    requires Inv(s) && Step(s, l, m, s')
    ensures Inv(s')
  {
    hide Inv, LeaderStep;
    match m
    case Foreign(_) => ForeignKeepsInv(s, l, m, s');
    case Begin(_) => BeginKeepsInv(s, l, m, s');
    case Load => LoadKeepsInv(s, l, m, s');
    case LoadFails(_) => LoadKeepsInv(s, l, m, s');
    case Identify(_, _) => IdentifyKeepsInv(s, l, m, s');
    case IdentifyFails => LoadKeepsInv(s, l, m, s');
    case LogIn(_, _) => LogInKeepsInv(s, l, m, s');
    case LogInFails(_) => LogInFailsKeepsInv(s, l, m, s');
    case Cancel => CleanUpKeepsInv(s, l, m, s');
    case CleanUp => CleanUpKeepsInv(s, l, m, s');
    case CleanUpLoadFails => CleanUpKeepsInv(s, l, m, s');
    case Swap => SwapKeepsInv(s, l, m, s');
    case SwapConflicts => SwapFailsKeepsInv(s, l, m, s');
    case SwapErrs => SwapFailsKeepsInv(s, l, m, s');
    case SwapAppliedErrs => SwapKeepsInv(s, l, m, s');
    case Reload => ReloadKeepsInv(s, l, m, s');
    case ReloadFails => ReloadKeepsInv(s, l, m, s');
    case CheckOld => RetireKeepsInv(s, l, m, s');
    case CheckOldFails => RetireKeepsInv(s, l, m, s');
    case LogOut => LogOutKeepsInv(s, l, m, s');
    case SkipLogOut => RetireKeepsInv(s, l, m, s');
  }

  // ---- over whole runs ------------------------------------------------------------------------

  datatype Action = Action(leader: nat, move: Move)

  ghost predicate Run(states: seq<State>, actions: seq<Action>) {
    && |states| == |actions| + 1
    && states[0] == Initial(states[0].cell)
    && forall i :: 0 <= i < |actions| ==> Step(states[i], actions[i].leader, actions[i].move, states[i + 1])
  }

  lemma {:induction false} RunKeepsInv(states: seq<State>, actions: seq<Action>, k: nat)
    requires Run(states, actions) && k < |states|
    ensures Inv(states[k])
  {
    hide Inv, Step;
    if k == 0 {
      InitialInv(states[0].cell);
    } else {
      RunKeepsInv(states, actions, k - 1);
      assert Step(states[k - 1], actions[k - 1].leader, actions[k - 1].move, states[k - 1 + 1]);
      StepKeepsInv(states[k - 1], actions[k - 1].leader, actions[k - 1].move, states[k]);
    }
  }

  lemma LoggedOutGrows(s: State, l: nat, m: Move, s': State)
    requires Step(s, l, m, s')
    ensures s.loggedOut <= s'.loggedOut && s.history <= s'.history
  {
  }

  lemma {:induction false} LoggedOutStays(states: seq<State>, actions: seq<Action>, i: nat, j: nat)
    requires Run(states, actions) && i <= j < |states|
    ensures states[i].loggedOut <= states[j].loggedOut && states[i].history <= states[j].history
    decreases j - i
  {
    hide Step;
    if i < j {
      LoggedOutStays(states, actions, i, j - 1);
      assert Step(states[j - 1], actions[j - 1].leader, actions[j - 1].move, states[j - 1 + 1]);
      LoggedOutGrows(states[j - 1], actions[j - 1].leader, actions[j - 1].move, states[j]);
    }
  }

  /** No leader ever logs out a token that the store holds at that moment or at any later one. */
  lemma LiveTokenIsNeverLoggedOut(states: seq<State>, actions: seq<Action>, i: nat, j: nat)
    requires Run(states, actions) && i < |actions| && i <= j < |states|
    requires actions[i].move.LogOut?
    ensures actions[i].leader in states[i].leaders && states[i].leaders[actions[i].leader].at.LoggingOut?
    ensures states[j].cell.token != states[i].leaders[actions[i].leader].at.token
  {
    hide Inv;
    var l := actions[i].leader;
    assert Step(states[i], l, actions[i].move, states[i + 1]);
    var token := states[i].leaders[l].at.token;
    if i == j {
      RunKeepsInv(states, actions, i);
      AboutToDie(states[i], l);
    } else {
      assert token in states[i + 1].loggedOut;
      hide Run, Step;
      LoggedOutStays(states, actions, i + 1, j);
      RunKeepsInv(states, actions, j);
      LoggedOutIsDead(states[j], token);
    }
  }

  lemma AboutToDie(s: State, l: nat)
    requires Inv(s) && l in s.leaders && s.leaders[l].at.LoggingOut?
    ensures s.cell.token != s.leaders[l].at.token
  {
    InvParts(s, l);
  }

  lemma LoggedOutIsDead(s: State, token: nat)
    requires Inv(s) && token in s.loggedOut
    ensures s.cell.token != token
  {
  }

  /** The stored tuple always comes whole from one login, its token and its generation issued to the same
      writer; every replacement by a leader names the generation it replaced; and no generation or token is
      ever stored twice. */
  lemma CommitsFormAChain(states: seq<State>, actions: seq<Action>, k: nat)
    requires Run(states, actions) && k < |states|
    ensures var h := states[k].history;
      && |h| > 0 && h[|h| - 1].auth == states[k].cell && Linked(h)
      && (forall i :: 0 <= i < |h| ==>
        && h[i].auth.token in states[k].issued && h[i].auth.generation in states[k].generations
        && states[k].issued[h[i].auth.token] == states[k].generations[h[i].auth.generation])
      && (forall i, j :: 0 <= i < j < |h| ==>
        h[i].auth.generation != h[j].auth.generation && h[i].auth.token != h[j].auth.token)
  {
    RunKeepsInv(states, actions, k);
  }

  /** A swap that is applied replaces exactly the tuple its leader had loaded, with what it had logged in. */
  lemma SwapIsExact(states: seq<State>, actions: seq<Action>, i: nat)
    requires Run(states, actions) && i < |actions| && actions[i].leader in states[i].leaders
    requires states[i].leaders[actions[i].leader].at.LoggedIn? && !actions[i].move.Foreign?
    requires states[i + 1].cell != states[i].cell
    ensures var at := states[i].leaders[actions[i].leader].at;
      states[i].cell == at.before && states[i + 1].cell == at.update.auth
  {
    RunKeepsInv(states, actions, i);
    assert Step(states[i], actions[i].leader, actions[i].move, states[i + 1]);
    SwapReplacesLoaded(states[i], actions[i].leader);
    hide Inv, Run;
  }

  /** Whatever a leader answers was the stored tuple at some moment. */
  lemma AnswersWereStored(states: seq<State>, actions: seq<Action>, k: nat, l: nat)
    requires Run(states, actions) && k < |states| && l in states[k].leaders
    requires states[k].leaders[l].at.Done? && states[k].leaders[l].at.answer.Ok?
    ensures WasStored(states[k].history, states[k].leaders[l].at.answer.auth)
  {
    RunKeepsInv(states, actions, k);
    InvParts(states[k], l);
  }

  // ---- intents --------------------------------------------------------------------------------

  /** What a leader has logged in with, until it answers. */
  function OwnLogin(at: LeaderAt): Option<Auth> {
    match at
    case LoggedIn(_, update) => Some(update.auth)
    case SwapFailed(_, update, _) => Some(update.auth)
    case Swapped(_, update) => Some(update.auth)
    case Retiring(_, Ok(auth)) => Some(auth)
    case _ => None
  }

  /** A leader has a login of its own, and it does not serve its caller. */
  ghost predicate LoggedInInVain(s: State, l: nat) {
    && l in s.leaders && OwnLogin(s.leaders[l].at).Some?
    && !Satisfied(OwnLogin(s.leaders[l].at).value, s.leaders[l].intent)
  }

  /** It has even stored that login. */
  ghost predicate StoredInVain(s: State, l: nat) {
    && LoggedInInVain(s, l) && s.leaders[l].at.Swapped? && s.leaders[l].at.update.auth == s.cell
  }

  /** The caller names a token that nobody has yet, and asks of a store that never had a session. */
  predicate NamedEarly(s: State, intent: Intent) {
    intent.Refresh? && intent.failed != 0 && intent.failed !in s.issued && s.cell.generation == 0
  }

  /** Any steps at all, from any state. */
  ghost predicate Path(states: seq<State>, actions: seq<Action>) {
    && |states| == |actions| + 1
    && forall i :: 0 <= i < |actions| ==> Step(states[i], actions[i].leader, actions[i].move, states[i + 1])
  }

  /** The state can go on with leader `l` taking up `intent`, and from there to the state `s'`. */
  ghost predicate Leads(s: State, l: nat, intent: Intent, s': State) {
    exists states: seq<State>, actions: seq<Action> :: LeadsBy(s, l, intent, s', states, actions)
  }

  ghost predicate LeadsBy(s: State, l: nat, intent: Intent, s': State, states: seq<State>, actions: seq<Action>) {
    && Path(states, actions) && |actions| > 0 && actions[0] == Action(l, Begin(intent))
    && states[0] == s && states[|actions|] == s'
  }

  ghost predicate CanLogInInVain(s: State, l: nat, intent: Intent) {
    exists s' :: Leads(s, l, intent, s') && LoggedInInVain(s', l)
  }

  ghost predicate CanStoreInVain(s: State, l: nat, intent: Intent) {
    exists s' :: Leads(s, l, intent, s') && StoredInVain(s', l)
  }

  // ---- a caller that did not name early is served ---------------------------------------------

  predicate BeforeLogin(at: LeaderAt) {
    at.Starting? || at.Loaded? || at.LoggingIn?
  }

  /** A later login of this leader cannot fail its caller: the token the caller named is taken, or the store
      is about to show a session. */
  ghost predicate Covered(issued: map<nat, nat>, stored: bool, leader: Leader) {
    && (leader.at.LoggingIn? ==> leader.at.generation != 0)
    && (OwnLogin(leader.at).Some? ==> Satisfied(OwnLogin(leader.at).value, leader.intent))
    && (leader.intent.Refresh? && BeforeLogin(leader.at) ==>
      leader.intent.failed == 0 || leader.intent.failed in issued || (leader.at.Starting? && stored))
  }

  ghost predicate CoveredIn(s: State, l: nat, intent: Intent) {
    l in s.leaders && s.leaders[l].intent == intent && Covered(s.issued, s.cell.generation != 0, s.leaders[l])
  }

  lemma OwnStepCovers(s: State, l: nat, m: Move, s': State)
    requires l in s.leaders && LeaderStep(s, l, m, s')
    requires Covered(s.issued, s.cell.generation != 0, s.leaders[l]) && s.cell.token in s.issued
    ensures l in s'.leaders && s'.leaders[l].intent == s.leaders[l].intent
    ensures Covered(s'.issued, s'.cell.generation != 0, s'.leaders[l])
  {
  }

  /** What any step leaves of the names, the store and the other leaders. */
  lemma StepLeaves(s: State, x: nat, m: Move, s': State, l: nat)
    requires Inv(s) && Step(s, x, m, s') && l in s.leaders && (x != l || m.Foreign?)
    ensures l in s'.leaders && s'.leaders[l] == s.leaders[l] && s.issued.Keys <= s'.issued.Keys
    ensures s.cell.generation != 0 ==> s'.cell.generation != 0
  {
    InvParts(s, x);
    hide Inv, WasStored, HeldToken, HeldGeneration, Chained;
  }

  lemma StepCovers(s: State, x: nat, m: Move, s': State, l: nat, intent: Intent)
    requires Inv(s) && Step(s, x, m, s') && CoveredIn(s, l, intent)
    ensures CoveredIn(s', l, intent)
  {
    CellIsStored(s);
    if x != l || m.Foreign? {
      hide Inv, Step;
      StepLeaves(s, x, m, s', l);
    } else {
      OwnMove(s, l, m, s');
      IssuedHoldsCell(s);
      hide Inv, Step, LeaderStep;
      OwnStepCovers(s, l, m, s');
    }
  }

  lemma OwnMove(s: State, l: nat, m: Move, s': State)
    requires Step(s, l, m, s') && l in s.leaders && !m.Foreign?
    ensures LeaderStep(s, l, m, s')
  {
    hide LeaderStep;
  }

  lemma IssuedHoldsCell(s: State)
    requires Inv(s)
    ensures s.cell.token in s.issued
  {
  }

  lemma BeginCovers(s: State, l: nat, intent: Intent, s': State)
    requires Step(s, l, Begin(intent), s') && !NamedEarly(s, intent)
    ensures CoveredIn(s', l, intent)
  {
  }

  /** A path keeps the invariant and a covered leader covered. */
  lemma {:induction false} PathCovers(states: seq<State>, actions: seq<Action>, l: nat, intent: Intent, k: nat)
    requires Path(states, actions) && Inv(states[0]) && k < |actions|
    requires actions[0] == Action(l, Begin(intent)) && !NamedEarly(states[0], intent)
    ensures Inv(states[k + 1]) && CoveredIn(states[k + 1], l, intent)
  {
    hide Inv, Step, CoveredIn, NamedEarly;
    var x, m := actions[k].leader, actions[k].move;
    assert Step(states[k], x, m, states[k + 1]);
    if k == 0 {
      BeginCovers(states[0], l, intent, states[1]);
    } else {
      PathCovers(states, actions, l, intent, k - 1);
      StepCovers(states[k], x, m, states[k + 1], l, intent);
    }
    StepKeepsInv(states[k], x, m, states[k + 1]);
  }

  /** So its own login is never in vain. */
  lemma VainIsEarly(s: State, l: nat, intent: Intent, s': State)
    requires Inv(s) && Leads(s, l, intent, s') && LoggedInInVain(s', l)
    ensures NamedEarly(s, intent)
  {
    hide Inv, NamedEarly, Path;
    var states: seq<State>, actions: seq<Action> :| LeadsBy(s, l, intent, s', states, actions);
    if !NamedEarly(s, intent) {
      PathCovers(states, actions, l, intent, |actions| - 1);
    }
  }

  // ---- a caller that did may be left unserved -------------------------------------------------

  ghost predicate Beyond(used: set<nat>, n: nat) {
    n != 0 && forall x :: x in used ==> x < n
  }

  lemma {:induction false} SomethingNew(used: set<nat>)
    ensures exists n :: Beyond(used, n)
  {
    if used == {} {
      assert Beyond(used, 1);
    } else {
      var x :| x in used;
      SomethingNew(used - {x});
      var n :| Beyond(used - {x}, n);
      assert used == (used - {x}) + {x};
      assert Beyond(used, if x < n then n else x + 1);
    }
  }

  /** What the leader logs in with when the upstream gives it the token that its caller named. */
  function EarlyLogin(s: State, generation: nat, token: nat): Auth {
    Auth(generation, s.cell.device + 1, 1, token)
  }

  /** The places of a leader from its begin to its swap. */
  function EarlyAt(s: State, generation: nat, token: nat, n: nat): LeaderAt {
    var login := EarlyLogin(s, generation, token);
    if n == 1 then Starting
    else if n == 2 then Loaded(s.cell)
    else if n == 3 then LoggingIn(s.cell, login.device, generation)
    else if n == 4 then LoggedIn(s.cell, Update(s.cell.generation, login))
    else Swapped(s.cell, Update(s.cell.generation, login))
  }

  function EarlyMove(s: State, generation: nat, token: nat, n: nat): Move {
    if n == 0 then Begin(Refresh(token))
    else if n == 1 then Load
    else if n == 2 then Identify(s.cell.device + 1, generation)
    else if n == 3 then LogIn(1, token)
    else Swap
  }

  function EarlyState(s: State, l: nat, generation: nat, token: nat, n: nat): State {
    var t := if n < 3 then s else s.(generations := s.generations[generation := l]);
    var u := if n < 4 then t else t.(issued := t.issued[token := l]);
    var v := if n < 5 then u else Store(u, EarlyLogin(s, generation, token), Some(s.cell.generation));
    if n == 0 then v else v.(leaders := s.leaders[l := Leader(Refresh(token), EarlyAt(s, generation, token, n))])
  }

  lemma EarlyStep(s: State, l: nat, generation: nat, token: nat, n: nat)
    requires n < 5 && l != 0 && l !in s.leaders && NamedEarly(s, Refresh(token)) && s.cell.token != token
    requires generation != 0 && generation !in s.generations
    ensures Step(EarlyState(s, l, generation, token, n), l, EarlyMove(s, generation, token, n),
                 EarlyState(s, l, generation, token, n + 1))
  {
    var t, t' := EarlyState(s, l, generation, token, n), EarlyState(s, l, generation, token, n + 1);
    var at := EarlyAt(s, generation, token, n + 1);
    assert n > 0 ==> t.leaders[l := t.leaders[l].(at := at)] == t'.leaders;
  }

  lemma EarlyIsVain(s: State, l: nat, token: nat)
    requires Inv(s) && l != 0 && l !in s.leaders && NamedEarly(s, Refresh(token))
    ensures CanStoreInVain(s, l, Refresh(token))
  {
    IssuedHoldsCell(s);
    hide Inv;
    SomethingNew(s.generations.Keys);
    var generation :| Beyond(s.generations.Keys, generation);
    var states := seq(6, n requires 0 <= n < 6 => EarlyState(s, l, generation, token, n));
    var actions := seq(5, n requires 0 <= n < 5 => Action(l, EarlyMove(s, generation, token, n)));
    forall n | 0 <= n < 5
      ensures Step(states[n], actions[n].leader, actions[n].move, states[n + 1])
    {
      EarlyStep(s, l, generation, token, n);
    }
    hide Step;
    assert LeadsBy(s, l, Refresh(token), states[5], states, actions);
    assert StoredInVain(states[5], l);
  }

  // ---- exactly when ---------------------------------------------------------------------------

  /** In any state of any run, a leader that takes up an intent can come to log in with, and even to store,
      what does not serve its caller, exactly if the caller names a token that was never issued while the
      store has no session yet. */
  lemma OwnLoginServesExactly(states: seq<State>, actions: seq<Action>, k: nat, l: nat, intent: Intent)
    requires Run(states, actions) && k < |states| && l != 0 && l !in states[k].leaders
    ensures CanLogInInVain(states[k], l, intent) <==> NamedEarly(states[k], intent)
    ensures CanStoreInVain(states[k], l, intent) <==> NamedEarly(states[k], intent)
  {
    RunKeepsInv(states, actions, k);
    hide Run, Inv, Leads, NamedEarly, LoggedInInVain;
    var s := states[k];
    if NamedEarly(s, intent) {
      assert intent == Refresh(intent.failed) by { EarlyIsRefresh(s, intent); }
      EarlyIsVain(s, l, intent.failed);
    }
    forall s' | Leads(s, l, intent, s') && LoggedInInVain(s', l)
      ensures NamedEarly(s, intent)
    {
      VainIsEarly(s, l, intent, s');
    }
  }

  lemma EarlyIsRefresh(s: State, intent: Intent)
    requires NamedEarly(s, intent)
    ensures intent.Refresh?
  {
  }

  /** The step at which a leader took up its intent. */
  predicate Began(actions: seq<Action>, i: nat, k: nat, l: nat, intent: Intent) {
    i < k <= |actions| && actions[i] == Action(l, Begin(intent))
  }

  lemma {:induction false} LeaderBegan(states: seq<State>, actions: seq<Action>, k: nat, l: nat)
    requires Run(states, actions) && k < |states| && l in states[k].leaders
    ensures exists i: nat :: Began(actions, i, k, l, states[k].leaders[l].intent)
  {
    hide LeaderStep;
    assert k > 0;
    var x, m := actions[k - 1].leader, actions[k - 1].move;
    assert Step(states[k - 1], x, m, states[k - 1 + 1]);
    if l in states[k - 1].leaders {
      IntentStays(states[k - 1], x, m, states[k], l);
      LeaderBegan(states, actions, k - 1, l);
      var i: nat :| Began(actions, i, k - 1, l, states[k].leaders[l].intent);
      assert Began(actions, i, k, l, states[k].leaders[l].intent);
    } else {
      FirstSeen(states[k - 1], x, m, states[k], l);
      assert Began(actions, k - 1, k, l, states[k].leaders[l].intent);
    }
  }

  lemma IntentStays(s: State, x: nat, m: Move, s': State, l: nat)
    requires Step(s, x, m, s') && l in s.leaders
    ensures l in s'.leaders && s'.leaders[l].intent == s.leaders[l].intent
  {
  }

  lemma FirstSeen(s: State, x: nat, m: Move, s': State, l: nat)
    requires Step(s, x, m, s') && l !in s.leaders && l in s'.leaders
    ensures x == l && m == Begin(s'.leaders[l].intent)
  {
  }

  /** So in every run, a leader's own login serves its caller if the caller did not name a token early. */
  lemma OwnLoginServes(states: seq<State>, actions: seq<Action>, k: nat, l: nat)
    requires Run(states, actions) && k < |states| && l in states[k].leaders
    requires OwnLogin(states[k].leaders[l].at).Some?
    requires forall i: nat, intent :: Began(actions, i, k, l, intent) ==> !NamedEarly(states[i], intent)
    ensures Satisfied(OwnLogin(states[k].leaders[l].at).value, states[k].leaders[l].intent)
  {
    var intent := states[k].leaders[l].intent;
    LeaderBegan(states, actions, k, l);
    var i: nat :| Began(actions, i, k, l, intent);
    RunKeepsInv(states, actions, i);
    assert Path(states[i..k + 1], actions[i..k]) by { PathOf(states, actions, i, k); }
    hide Run, Path, Inv, NamedEarly, Satisfied, OwnLogin;
    assert LeadsBy(states[i], l, intent, states[k], states[i..k + 1], actions[i..k]);
    if LoggedInInVain(states[k], l) {
      VainIsEarly(states[i], l, intent, states[k]);
    }
  }

  lemma PathOf(states: seq<State>, actions: seq<Action>, i: nat, k: nat)
    requires Run(states, actions) && i <= k < |states|
    ensures Path(states[i..k + 1], actions[i..k])
  {
    hide Step;
    var part, acts := states[i..k + 1], actions[i..k];
    forall n | 0 <= n < |acts|
      ensures Step(part[n], acts[n].leader, acts[n].move, part[n + 1])
    {
      assert Step(states[i + n], actions[i + n].leader, actions[i + n].move, states[i + n + 1]);
    }
  }

  /** A case of it: on a store that never had a session a caller names token 5, and the upstream then issues
      that token to the caller's leader, which stores it. */
  lemma NamedInAdvance()
    ensures CanStoreInVain(Initial(Auth(0, 0, 0, 0)), 1, Refresh(5))
  {
    var s := Initial(Auth(0, 0, 0, 0));
    assert Run([s], []);
    OwnLoginServesExactly([s], [], 0, 1, Refresh(5));
  }

  // ---- the caller -----------------------------------------------------------------------------

  /** What a shared flight delivers: a tuple, or an error, which may be the cancellation of its leader while
      the caller's own context is still live. */
  datatype Flight = Landed(auth: Auth) | Failed(error: Error, leaderCanceled: bool)

  /** A flight that a leader of the run ended with this answer. */
  ghost predicate Lands(states: seq<State>, t: nat, l: nat, auth: Auth) {
    t < |states| && l in states[t].leaders && states[t].leaders[l].at == Done(Ok(auth))
  }

  /** The loads saw what the run's store held, and the flights that landed were led by its leaders. */
  ghost predicate SeenIn(states: seq<State>, load: nat -> Option<Auth>, flight: nat -> Flight) {
    && (forall k :: load(k).Some? ==> exists t: nat :: t < |states| && states[t].cell == load(k).value)
    && (forall k :: flight(k).Landed? ==> exists t, l :: Lands(states, t, l, flight(k).auth))
  }

  lemma StoredStays(states: seq<State>, actions: seq<Action>, t: nat, auth: Auth)
    requires Run(states, actions) && t < |states| && WasStored(states[t].history, auth)
    ensures WasStored(states[|actions|].history, auth)
  {
    LoggedOutStays(states, actions, t, |actions|);
    hide Run;
    var i :| 0 <= i < |states[t].history| && states[t].history[i].auth == auth;
    assert states[|actions|].history[i].auth == auth;
  }

  lemma SeenWereStoredIn(states: seq<State>, actions: seq<Action>, load: nat -> Option<Auth>, flight: nat -> Flight)
    requires Run(states, actions) && SeenIn(states, load, flight)
    ensures forall k :: load(k).Some? ==> WasStored(states[|actions|].history, load(k).value)
    ensures forall k :: flight(k).Landed? ==> WasStored(states[|actions|].history, flight(k).auth)
  {
    assert |states| == |actions| + 1;
    hide Run, WasStored;
    forall k | load(k).Some?
      ensures WasStored(states[|actions|].history, load(k).value)
    {
      var t: nat :| t < |states| && states[t].cell == load(k).value;
      RunKeepsInv(states, actions, t);
      CellIsStored(states[t]);
      StoredStays(states, actions, t, load(k).value);
    }
    forall k | flight(k).Landed?
      ensures WasStored(states[|actions|].history, flight(k).auth)
    {
      var t, l :| Lands(states, t, l, flight(k).auth);
      AnswersWereStored(states, actions, t, l);
      StoredStays(states, actions, t, flight(k).auth);
    }
  }

  /** Every run that the loads and flights can be from once stored the tuple. */
  ghost predicate StoredWherever(load: nat -> Option<Auth>, flight: nat -> Flight, auth: Auth) {
    forall states: seq<State>, actions: seq<Action> ::
      Run(states, actions) && SeenIn(states, load, flight) ==> WasStored(states[|actions|].history, auth)
  }

  lemma SeenWereStored(load: nat -> Option<Auth>, flight: nat -> Flight)
    ensures forall k :: load(k).Some? ==> StoredWherever(load, flight, load(k).value)
    ensures forall k :: flight(k).Landed? ==> StoredWherever(load, flight, flight(k).auth)
  {
    forall states: seq<State>, actions: seq<Action> | Run(states, actions) && SeenIn(states, load, flight)
      ensures forall k :: load(k).Some? ==> WasStored(states[|actions|].history, load(k).value)
      ensures forall k :: flight(k).Landed? ==> WasStored(states[|actions|].history, flight(k).auth)
    {
      SeenWereStoredIn(states, actions, load, flight);
    }
    hide Run, SeenIn, WasStored;
  }

  /** On its k-th try the caller finds a stored tuple that does not serve it, and so joins a flight. */
  predicate Joins(k: nat, intent: Intent, canceled: nat -> bool, load: nat -> Option<Auth>) {
    !canceled(k) && load(k).Some? && !Satisfied(load(k).value, intent)
  }

  /** Its first flight was cancelled by its leader, or landed with what does not serve it. */
  predicate TriesAgain(intent: Intent, canceled: nat -> bool, load: nat -> Option<Auth>, flight: nat -> Flight,
      interrupted: nat -> bool) {
    && Joins(0, intent, canceled, load) && !interrupted(0)
    && (if flight(0).Landed? then !Satisfied(flight(0).auth, intent) else flight(0).leaderCanceled)
  }

  /** How the caller's k-th try ends it: with the tuple that serves it, stored or landed, or with the first error;
      the first try has no end if the caller tries again. */
  predicate Exits(k: nat, intent: Intent, canceled: nat -> bool, load: nat -> Option<Auth>, flight: nat -> Flight,
      interrupted: nat -> bool, answer: Answer, flights: nat) {
    && (canceled(k) ==> answer == Err(ErrCanceled) && flights == k)
    && (!canceled(k) && load(k).None? ==> answer == Err(ErrStore) && flights == k)
    && (!canceled(k) && load(k).Some? && Satisfied(load(k).value, intent) ==> answer == Ok(load(k).value) && flights == k)
    && (Joins(k, intent, canceled, load) && interrupted(k) ==> answer == Err(ErrCanceled) && flights == k + 1)
    && (Joins(k, intent, canceled, load) && !interrupted(k) ==>
      match flight(k)
      case Landed(auth) =>
        && (Satisfied(auth, intent) ==> answer == Ok(auth) && flights == k + 1)
        && (!Satisfied(auth, intent) && k == 1 ==> answer == Err(ErrConflict) && flights == 2)
      case Failed(error, leaderCanceled) =>
        !leaderCanceled || k == 1 ==> answer == Err(error) && flights == k + 1)
  }

  /** A caller loads, joins a flight when it must, and may join a second one. Each script gives the result of
      the k-th load, flight or check of the caller's own context. When they are those of a run of the leaders
      and the other writers, whatever the caller answers was once stored there. */
  method RunFlights(intent: Intent, canceled: nat -> bool, load: nat -> Option<Auth>, flight: nat -> Flight,
                    interrupted: nat -> bool)
    returns (answer: Answer, flights: nat)
    ensures Exits(0, intent, canceled, load, flight, interrupted, answer, flights)
    ensures TriesAgain(intent, canceled, load, flight, interrupted) ==>
      Exits(1, intent, canceled, load, flight, interrupted, answer, flights)
    ensures flights <= 2 && (flights == 2 ==> TriesAgain(intent, canceled, load, flight, interrupted))
    ensures answer.Ok? ==> Satisfied(answer.auth, intent)
    ensures answer.Ok? ==>
      || load(flights) == Some(answer.auth)
      || (flights > 0 && flight(flights - 1) == Landed(answer.auth))
    ensures answer.Ok? ==> StoredWherever(load, flight, answer.auth)
  {
    SeenWereStored(load, flight);
    hide StoredWherever;
    var retried := false;
    flights := 0;
    while true
      invariant flights == if retried then 1 else 0
      invariant retried ==> TriesAgain(intent, canceled, load, flight, interrupted)
      decreases if retried then 0 else 1
    {
      if canceled(flights) {
        return Err(ErrCanceled), flights;
      }
      var loaded := load(flights);
      if loaded.None? {
        return Err(ErrStore), flights;
      }
      if Satisfied(loaded.value, intent) {
        return Ok(loaded.value), flights;
      }
      var k := flights;
      flights := flights + 1;
      if interrupted(k) {
        return Err(ErrCanceled), flights;
      }
      match flight(k) {
        case Failed(error, leaderCanceled) =>
          if !leaderCanceled || retried {
            return Err(error), flights;
          }
        case Landed(auth) =>
          if Satisfied(auth, intent) {
            return Ok(auth), flights;
          }
          if retried {
            return Err(ErrConflict), flights;
          }
      }
      retried := true;
    }
  }
}

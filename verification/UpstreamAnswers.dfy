/**
 What a leader of the credential rotation answers: after a swap that was applied what the store then holds,
 never an error of its own making; and which sessions it retires, so that no login is left behind.
 */
module UpstreamAnswers {
  import opened Wrappers
  import opened UpstreamAuth

  /** What a leader has decided to answer. */
  function AnswerOf(at: LeaderAt): Option<Answer> {
    match at
    case Retiring(_, answer) => Some(answer)
    case LoggingOut(_, answer) => Some(answer)
    case Done(answer) => Some(answer)
    case _ => None
  }

  // ---- the tuple that a swap replaced never comes back -----------------------------------------

  /** Once a leader's swap was applied, the generation it expected is one of the past. */
  ghost predicate Past(s: State, at: LeaderAt) {
    at.Swapped? ==> HeldGeneration(s.history, at.update.expected) && s.cell.generation != at.update.expected
  }

  ghost predicate AllPast(s: State) {
    forall l :: l in s.leaders ==> Past(s, s.leaders[l].at)
  }

  ghost predicate SameStore(s: State, s': State) {
    s'.history == s.history && s'.cell == s.cell
  }

  /** The commit stores a generation that was never held. */
  ghost predicate StoresNew(s: State, s': State, c: Commit) {
    s'.history == s.history + [c] && s'.cell == c.auth && !HeldGeneration(s.history, c.auth.generation)
  }

  lemma StepStoresNew(s: State, x: nat, m: Move, s': State)
    requires Inv(s) && Step(s, x, m, s')
    ensures SameStore(s, s') || exists c :: StoresNew(s, s', c)
  {
    InvParts(s, x);
    if m.Foreign? {
      IssuedAreFresh(s, 0, m.auth.generation);
      assert StoresNew(s, s', Commit(m.auth, None));
    } else if m.Swap? || m.SwapAppliedErrs? {
      var update := s.leaders[x].at.update;
      assert StoresNew(s, s', Commit(update.auth, Some(update.expected)));
    }
    hide Inv, Chained, HeldGeneration, HeldToken, WasStored;
  }

  /** Who swaps has loaded the generation that it expects, which the store held just before. */
  lemma SwapperIsPast(s: State, x: nat, m: Move, s': State)
    requires Inv(s) && Step(s, x, m, s')
    ensures forall l :: l in s'.leaders && s'.leaders[l].at.Swapped? ==>
      || (l in s.leaders && s.leaders[l].at == s'.leaders[l].at)
      || (s'.leaders[l].at.update.expected == s.cell.generation && exists c :: StoresNew(s, s', c))
  {
    InvParts(s, x);
    if m.Swap? {
      var update := s.leaders[x].at.update;
      assert StoresNew(s, s', Commit(update.auth, Some(update.expected)));
    }
    hide Inv, Chained, HeldGeneration, HeldToken, WasStored;
  }

  lemma PastStays(s: State, s': State, at: LeaderAt)
    requires Past(s, at) && (SameStore(s, s') || exists c :: StoresNew(s, s', c))
    ensures Past(s', at)
  {
    if !SameStore(s, s') {
      var c :| StoresNew(s, s', c);
      HistoryGrows(s.history, c);
    }
    hide HeldGeneration;
  }

  lemma NewlyPast(s: State, s': State, at: LeaderAt)
    requires Chained(s) && at.Swapped? && at.update.expected == s.cell.generation
    requires exists c :: StoresNew(s, s', c)
    ensures Past(s', at)
  {
    CellIsStored(s);
    var c :| StoresNew(s, s', c);
    HistoryGrows(s.history, c);
    hide Chained, HeldGeneration;
  }

  lemma StepKeepsPast(s: State, x: nat, m: Move, s': State)
    requires Inv(s) && AllPast(s) && Step(s, x, m, s')
    ensures AllPast(s')
  {
    StepStoresNew(s, x, m, s');
    SwapperIsPast(s, x, m, s');
    ChainedOf(s);
    hide Inv, Step, Chained, HeldGeneration, Past, StoresNew, SameStore;
    forall l | l in s'.leaders
      ensures Past(s', s'.leaders[l].at)
    {
      var at := s'.leaders[l].at;
      if l in s.leaders && s.leaders[l].at == at {
        PastStays(s, s', at);
      } else if at.Swapped? {
        NewlyPast(s, s', at);
      } else {
        NotSwapped(s', at);
      }
    }
  }

  lemma NotSwapped(s: State, at: LeaderAt)
    requires !at.Swapped?
    ensures Past(s, at)
  {
  }

  lemma ChainedOf(s: State)
    requires Inv(s)
    ensures Chained(s)
  {
    hide Chained;
  }

  lemma {:induction false} RunKeepsPast(states: seq<State>, actions: seq<Action>, k: nat)
    requires Run(states, actions) && k < |states|
    ensures AllPast(states[k]) && Inv(states[k])
  {
    hide Inv, Step;
    RunKeepsInv(states, actions, k);
    if k > 0 {
      RunKeepsPast(states, actions, k - 1);
      assert Step(states[k - 1], actions[k - 1].leader, actions[k - 1].move, states[k - 1 + 1]);
      StepKeepsPast(states[k - 1], actions[k - 1].leader, actions[k - 1].move, states[k]);
    }
  }

  // ---- each decision of a leader --------------------------------------------------------------

  /** The moment of a leader's own step in a run. */
  ghost predicate Takes(states: seq<State>, actions: seq<Action>, i: nat, l: nat, m: Move) {
    Run(states, actions) && i < |actions| && actions[i] == Action(l, m) && l in states[i].leaders
  }

  lemma TakesIs(states: seq<State>, actions: seq<Action>, i: nat, l: nat, m: Move)
    requires Takes(states, actions, i, l, m) && !m.Foreign? && !m.Begin?
    ensures |states| == |actions| + 1 && Inv(states[i]) && AllPast(states[i])
    ensures LeaderStep(states[i], l, m, states[i + 1]) && l in states[i + 1].leaders
  {
    RunKeepsPast(states, actions, i);
    hide Inv, AllPast;
    assert Step(states[i], actions[i].leader, actions[i].move, states[i + 1]);
    KeepsLeader(states[i], l, m, states[i + 1]);
  }

  lemma KeepsLeader(s: State, l: nat, m: Move, s': State)
    requires l in s.leaders && LeaderStep(s, l, m, s')
    ensures l in s'.leaders
  {
  }

  /** A leader whose caller is served by what it loads answers that at once, and only then. */
  lemma LoadAnswers(states: seq<State>, actions: seq<Action>, i: nat, l: nat)
    requires Takes(states, actions, i, l, Load)
    ensures i + 1 < |states| && l in states[i + 1].leaders
    ensures var cell, intent := states[i].cell, states[i].leaders[l].intent;
      states[i + 1].leaders[l].at ==
        if cell.generation != 0 && (intent == Ensure || cell.token != intent.failed) then Done(Ok(cell)) else Loaded(cell)
  {
    TakesIs(states, actions, i, l, Load);
    hide Run, Inv, AllPast;
  }

  ghost predicate SameFields(a: Auth, b: Auth) {
    a.generation == b.generation && a.device == b.device && a.user == b.user && a.token == b.token
  }

  lemma ReloadAfterSwap(s: State, l: nat, s': State)
    requires Inv(s) && AllPast(s) && l in s.leaders && LeaderStep(s, l, Reload, s') && s.leaders[l].at.Swapped?
    ensures l in s'.leaders
    ensures var at := s.leaders[l].at;
      s'.leaders[l].at ==
        if SameFields(s.cell, at.update.auth) then Retiring(at.before, Ok(s.cell)) else Done(Ok(s.cell))
  {
    var at := s.leaders[l].at;
    InvParts(s, l);
    CellIsStored(s);
    if s.cell.generation == at.update.auth.generation {
      SameGeneration(s, s.cell, at.update.auth);
    }
    assert Past(s, at);
    hide Inv, Chained, HeldGeneration, HeldToken, WasStored;
  }

  /** After a swap that was applied, a reload that succeeds is answered with what the store holds then, whoever
      stored it; and if that is the leader's own tuple, the session it had loaded is looked at for retirement. */
  lemma AppliedSwapIsAnswered(states: seq<State>, actions: seq<Action>, i: nat, l: nat)
    requires Takes(states, actions, i, l, Reload) && states[i].leaders[l].at.Swapped?
    ensures i + 1 < |states| && l in states[i + 1].leaders
    ensures var at, cell := states[i].leaders[l].at, states[i].cell;
      states[i + 1].leaders[l].at ==
        if SameFields(cell, at.update.auth) then Retiring(at.before, Ok(cell)) else Done(Ok(cell))
  {
    TakesIs(states, actions, i, l, Reload);
    hide Run, Inv, AllPast, LeaderStep;
    ReloadAfterSwap(states[i], l, states[i + 1]);
  }

  /** A login is left over if the store holds neither it nor, as the leader found it, held it before. */
  predicate IsLeftOver(token: nat, before: Auth, cell: Auth) {
    token != 0 && token != before.token && token != cell.token
  }

  /** After a swap that failed, a reload decides: its own tuple is answered; another one is answered too after a
      conflict, and after any other error is not. In either case the login that is left over is logged out. */
  lemma FailedSwapIsAnswered(states: seq<State>, actions: seq<Action>, i: nat, l: nat)
    requires Takes(states, actions, i, l, Reload) && states[i].leaders[l].at.SwapFailed?
    ensures i + 1 < |states| && l in states[i + 1].leaders
    ensures var at, cell := states[i].leaders[l].at, states[i].cell;
      var answer := if at.conflict then Ok(cell) else Err(ErrStore);
      states[i + 1].leaders[l].at ==
        if SameFields(cell, at.update.auth) then Done(Ok(cell))
        else if IsLeftOver(at.update.auth.token, at.before, cell) then LoggingOut(at.update.auth.token, answer)
        else Done(answer)
  {
    TakesIs(states, actions, i, l, Reload);
    hide Run, Inv, AllPast;
  }

  /** After a login that failed or was cancelled, its token is logged out if it is left over. */
  lemma FailedLoginIsCleanedUp(states: seq<State>, actions: seq<Action>, i: nat, l: nat)
    requires Takes(states, actions, i, l, CleanUp) && states[i].leaders[l].at.LoginFailed?
    ensures i + 1 < |states| && l in states[i + 1].leaders
    ensures var at := states[i].leaders[l].at;
      states[i + 1].leaders[l].at ==
        if IsLeftOver(at.token, at.before, states[i].cell) then LoggingOut(at.token, Err(at.error)) else Done(Err(at.error))
  {
    TakesIs(states, actions, i, l, CleanUp);
    hide Run, Inv, AllPast;
  }

  /** The session that a leader has replaced is logged out if it was one and is not stored. */
  lemma OldSessionIsRetired(states: seq<State>, actions: seq<Action>, i: nat, l: nat)
    requires Takes(states, actions, i, l, CheckOld) && states[i].leaders[l].at.Retiring?
    ensures i + 1 < |states| && l in states[i + 1].leaders
    ensures var at := states[i].leaders[l].at;
      states[i + 1].leaders[l].at ==
        if at.before.generation != 0 && at.before.token != 0 && states[i].cell.token != at.before.token
        then LoggingOut(at.before.token, at.answer) else Done(at.answer)
  {
    TakesIs(states, actions, i, l, CheckOld);
    hide Run, Inv, AllPast;
  }

  lemma LogOutIsDone(states: seq<State>, actions: seq<Action>, i: nat, l: nat)
    requires Takes(states, actions, i, l, LogOut) && states[i].leaders[l].at.LoggingOut?
    ensures i + 1 < |states| && l in states[i + 1].leaders
    ensures var at := states[i].leaders[l].at;
      at.token in states[i + 1].loggedOut && states[i + 1].leaders[l].at == Done(at.answer)
  {
    TakesIs(states, actions, i, l, LogOut);
    hide Run, Inv, AllPast;
  }

  // ---- what is decided stays decided ----------------------------------------------------------

  lemma StepKeepsAnswer(s: State, x: nat, m: Move, s': State, l: nat)
    requires Step(s, x, m, s') && l in s.leaders && AnswerOf(s.leaders[l].at).Some?
    ensures l in s'.leaders && AnswerOf(s'.leaders[l].at) == AnswerOf(s.leaders[l].at)
  {
  }

  lemma {:induction false} AnswerStays(states: seq<State>, actions: seq<Action>, i: nat, k: nat, l: nat)
    requires Run(states, actions) && i <= k < |states| && l in states[i].leaders && AnswerOf(states[i].leaders[l].at).Some?
    ensures l in states[k].leaders && AnswerOf(states[k].leaders[l].at) == AnswerOf(states[i].leaders[l].at)
    decreases k
  {
    hide Step, AnswerOf;
    if i < k {
      AnswerStays(states, actions, i, k - 1, l);
      assert Step(states[k - 1], actions[k - 1].leader, actions[k - 1].move, states[k - 1 + 1]);
      StepKeepsAnswer(states[k - 1], actions[k - 1].leader, actions[k - 1].move, states[k], l);
    }
  }

  // ---- no error of a leader's own making ------------------------------------------------------

  /** A leader never answers that its tuple and the store's do not match, or that two logins gave one token. */
  predicate Sane(at: LeaderAt) {
    && AnswerOf(at) != Some(Err(ErrMismatch)) && AnswerOf(at) != Some(Err(ErrCollision))
    && (at.LoginFailed? ==> at.error == ErrLogin || at.error == ErrCanceled)
  }

  lemma LogInIsNew(s: State, l: nat, m: Move, s': State)
    requires Inv(s) && l in s.leaders && m.LogIn? && LeaderStep(s, l, m, s')
    ensures l in s'.leaders && s'.leaders[l].at.LoggedIn?
  {
    InvParts(s, l);
    StoredIsIssued(s, s.leaders[l].at.before);
    hide Inv, Chained, WasStored;
  }

  lemma StoredIsIssued(s: State, auth: Auth)
    requires Chained(s) && WasStored(s.history, auth)
    ensures auth.token in s.issued
  {
  }

  lemma OtherStepsAreSane(s: State, l: nat, m: Move, s': State)
    requires l in s.leaders && LeaderStep(s, l, m, s') && Sane(s.leaders[l].at)
    requires !m.LogIn? && !(m.Reload? && s.leaders[l].at.Swapped?)
    ensures l in s'.leaders && Sane(s'.leaders[l].at)
  {
  }

  lemma OwnStepIsSane(s: State, l: nat, m: Move, s': State)
    requires Inv(s) && AllPast(s) && l in s.leaders && LeaderStep(s, l, m, s') && Sane(s.leaders[l].at)
    ensures l in s'.leaders && Sane(s'.leaders[l].at)
  {
    hide Inv, AllPast, LeaderStep;
    if m.LogIn? {
      LogInIsNew(s, l, m, s');
    } else if m.Reload? && s.leaders[l].at.Swapped? {
      ReloadAfterSwap(s, l, s');
    } else {
      OtherStepsAreSane(s, l, m, s');
    }
  }

  lemma StepIsSane(s: State, x: nat, m: Move, s': State)
    requires Inv(s) && AllPast(s) && Step(s, x, m, s') && forall l :: l in s.leaders ==> Sane(s.leaders[l].at)
    ensures forall l :: l in s'.leaders ==> Sane(s'.leaders[l].at)
  {
    hide Inv, AllPast, LeaderStep;
    if !m.Foreign? && !m.Begin? {
      OwnStepIsSane(s, x, m, s');
      OnlyItsLeader(s, x, m, s');
    }
  }

  lemma OnlyItsLeader(s: State, l: nat, m: Move, s': State)
    requires l in s.leaders && LeaderStep(s, l, m, s')
    ensures l in s'.leaders && s'.leaders == s.leaders[l := s'.leaders[l]]
  {
  }

  /** In no run does a leader answer an error of its own making. */
  lemma {:induction false} NoErrorOfItsOwn(states: seq<State>, actions: seq<Action>, k: nat)
    requires Run(states, actions) && k < |states|
    ensures forall l :: l in states[k].leaders ==> Sane(states[k].leaders[l].at)
  {
    hide Inv, AllPast, Step, Sane;
    if k > 0 {
      NoErrorOfItsOwn(states, actions, k - 1);
      RunKeepsPast(states, actions, k - 1);
      assert Step(states[k - 1], actions[k - 1].leader, actions[k - 1].move, states[k - 1 + 1]);
      StepIsSane(states[k - 1], actions[k - 1].leader, actions[k - 1].move, states[k]);
    }
  }

  // ---- an applied swap succeeds ---------------------------------------------------------------

  /** Between `i` and `k` the leader reloaded, and what the store held then is its answer. */
  ghost predicate AnsweredWith(states: seq<State>, actions: seq<Action>, i: nat, k: nat, l: nat, answer: Option<Answer>) {
    exists j :: i <= j < k && k <= |actions| < |states| && actions[j] == Action(l, Reload) && answer == Some(Ok(states[j].cell))
  }

  lemma SwappedWaits(s: State, x: nat, m: Move, s': State, l: nat)
    requires Step(s, x, m, s') && l in s.leaders && s.leaders[l].at.Swapped?
    requires x != l || m.Foreign? || (!m.Reload? && !m.ReloadFails?)
    ensures l in s'.leaders && s'.leaders[l].at == s.leaders[l].at
  {
  }

  /** A leader whose swap was applied, and whose reload does not fail, comes to no answer but what the store held
      at its reload: its own tuple, or one that replaced it. */
  lemma {:induction false} AppliedSwapSucceeds(states: seq<State>, actions: seq<Action>, i: nat, k: nat, l: nat)
    requires Run(states, actions) && i <= k < |states| && l in states[i].leaders && states[i].leaders[l].at.Swapped?
    requires forall j :: i <= j < k ==> actions[j] != Action(l, ReloadFails)
    ensures l in states[k].leaders
    ensures states[k].leaders[l].at == states[i].leaders[l].at
         || AnsweredWith(states, actions, i, k, l, AnswerOf(states[k].leaders[l].at))
    decreases k
  {
    hide Step, AnswerOf;
    if i < k {
      AppliedSwapSucceeds(states, actions, i, k - 1, l);
      var s, a, s' := states[k - 1], actions[k - 1], states[k];
      assert Step(states[k - 1], actions[k - 1].leader, actions[k - 1].move, states[k - 1 + 1]);
      if s.leaders[l].at != states[i].leaders[l].at {
        var j :| i <= j < k - 1 && actions[j] == Action(l, Reload) && AnswerOf(s.leaders[l].at) == Some(Ok(states[j].cell));
        StepKeepsAnswer(s, a.leader, a.move, s', l);
        assert AnsweredWith(states, actions, i, k, l, AnswerOf(s'.leaders[l].at));
      } else if a.leader != l || a.move.Foreign? || (!a.move.Reload? && !a.move.ReloadFails?) {
        SwappedWaits(s, a.leader, a.move, s', l);
      } else {
        assert a == Action(l, a.move);
        AppliedSwapIsAnswered(states, actions, k - 1, l);
        AnswerIs(s'.leaders[l].at);
        assert actions[k - 1] == Action(l, Reload);
      }
    }
  }

  lemma AnswerIs(at: LeaderAt)
    ensures at.Retiring? ==> AnswerOf(at) == Some(at.answer)
    ensures at.Done? ==> AnswerOf(at) == Some(at.answer)
  {
  }

  // ---- a leader ends --------------------------------------------------------------------------

  /** How many steps of its own a leader can still take. */
  function StepsLeft(at: LeaderAt): nat {
    match at
    case Starting => 7
    case Loaded(_) => 6
    case LoggingIn(_, _, _) => 5
    case LoggedIn(_, _) => 4
    case Swapped(_, _) => 3
    case LoginFailed(_, _, _) => 2
    case SwapFailed(_, _, _) => 2
    case Retiring(_, _) => 2
    case LoggingOut(_, _) => 1
    case Done(_) => 0
  }

  /** A leader takes at most seven steps, and until it is done it can take one, whatever the store holds. */
  lemma LeaderEnds(s: State, l: nat, m: Move, s': State)
    requires l in s.leaders && LeaderStep(s, l, m, s')
    ensures l in s'.leaders && StepsLeft(s'.leaders[l].at) < StepsLeft(s.leaders[l].at)
  {
  }

  /** A move in which nothing fails. */
  predicate Succeeds(m: Move) {
    m.Load? || m.Identify? || m.LogIn? || m.Swap? || m.SwapConflicts? || m.CleanUp? || m.Reload? || m.CheckOld? || m.LogOut?
  }

  ghost predicate CanSucceed(s: State, l: nat) {
    l in s.leaders && exists m, s' :: Succeeds(m) && LeaderStep(s, l, m, s')
  }

  lemma CanLoad(s: State, l: nat)
    requires l in s.leaders && s.leaders[l].at.Starting?
    ensures CanSucceed(s, l)
  {
    var leader := s.leaders[l];
    assert LeaderStep(s, l, Load, To(s, l, if Satisfied(s.cell, leader.intent) then Done(Ok(s.cell)) else Loaded(s.cell)));
  }

  lemma CanIdentify(s: State, l: nat)
    requires l in s.leaders && s.leaders[l].at.Loaded?
    ensures CanSucceed(s, l)
  {
    var before := s.leaders[l].at.before;
    SomethingNew(s.generations.Keys + {before.generation});
    var g :| Beyond(s.generations.Keys + {before.generation}, g);
    assert LeaderStep(s, l, Identify(before.device + 1, g),
                      To(s, l, LoggingIn(before, before.device + 1, g)).(generations := s.generations[g := l]));
  }

  lemma CanLogIn(s: State, l: nat)
    requires l in s.leaders && s.leaders[l].at.LoggingIn?
    ensures CanSucceed(s, l)
  {
    var at := s.leaders[l].at;
    SomethingNew(s.issued.Keys + {at.before.token});
    var t :| Beyond(s.issued.Keys + {at.before.token}, t);
    var update := Update(at.before.generation, Auth(at.generation, at.device, 1, t));
    assert LeaderStep(s, l, LogIn(1, t), To(s, l, LoggedIn(at.before, update)).(issued := s.issued[t := l]));
  }

  lemma CanSwap(s: State, l: nat)
    requires l in s.leaders && s.leaders[l].at.LoggedIn?
    ensures CanSucceed(s, l)
  {
    var at := s.leaders[l].at;
    if s.cell.generation == at.update.expected {
      assert LeaderStep(s, l, Swap, To(Store(s, at.update.auth, Some(at.update.expected)), l, Swapped(at.before, at.update)));
    } else {
      assert LeaderStep(s, l, SwapConflicts, To(s, l, SwapFailed(at.before, at.update, true)));
    }
  }

  lemma CanFinish(s: State, l: nat)
    requires l in s.leaders
    requires var at := s.leaders[l].at;
      at.LoginFailed? || at.SwapFailed? || at.Swapped? || at.Retiring? || at.LoggingOut?
    ensures CanSucceed(s, l)
  {
    var at := s.leaders[l].at;
    match at
    case LoginFailed(before, token, error) =>
      assert LeaderStep(s, l, CleanUp,
                        To(s, l, if Leftover(token, before, s.cell) then LoggingOut(token, Err(error)) else Done(Err(error))));
    case SwapFailed(before, update, conflict) =>
      assert LeaderStep(s, l, Reload, To(s, l, AfterSwapFailed(before, update, conflict, s.cell)));
    case Swapped(before, update) =>
      assert LeaderStep(s, l, Reload, To(s, l, AfterSwapped(before, update, s.cell)));
    case Retiring(before, answer) =>
      assert LeaderStep(s, l, CheckOld,
                        To(s, l, if before.generation != 0 && before.token != 0 && s.cell.token != before.token
                                 then LoggingOut(before.token, answer) else Done(answer)));
    case LoggingOut(token, answer) =>
      assert LeaderStep(s, l, LogOut, To(s, l, Done(answer)).(loggedOut := s.loggedOut + {token}));
  }

  /** Until it is done a leader can always take a step that does not fail. */
  lemma LeaderGoesOn(s: State, l: nat)
    requires l in s.leaders && !s.leaders[l].at.Done?
    ensures CanSucceed(s, l)
  {
    hide LeaderStep, CanSucceed;
    match s.leaders[l].at
    case Starting => CanLoad(s, l);
    case Loaded(_) => CanIdentify(s, l);
    case LoggingIn(_, _, _) => CanLogIn(s, l);
    case LoggedIn(_, _) => CanSwap(s, l);
    case _ => CanFinish(s, l);
  }

  // ---- a rotation that nobody disturbs --------------------------------------------------------

  /** The steps of a leader that succeeds. */
  function SmoothMoves(intent: Intent, login: Auth): seq<Move> {
    [Begin(intent), Load, Identify(login.device, login.generation), LogIn(login.user, login.token), Swap, Reload, CheckOld]
  }

  ghost predicate Smooth(states: seq<State>, l: nat, intent: Intent, login: Auth) {
    |states| == 8 && forall i :: 0 <= i < 7 ==> Step(states[i], l, SmoothMoves(intent, login)[i], states[i + 1])
  }

  lemma SmoothStep(states: seq<State>, l: nat, intent: Intent, login: Auth, i: nat)
    requires Smooth(states, l, intent, login) && i < 7
    ensures Step(states[i], l, SmoothMoves(intent, login)[i], states[i + 1])
  {
    hide Step, SmoothMoves;
  }

  lemma SmoothLogIn(states: seq<State>, l: nat, intent: Intent, login: Auth)
    requires Smooth(states, l, intent, login) && Inv(states[0])
    ensures l in states[4].leaders && states[4].cell == states[0].cell
    ensures states[4].leaders[l].at == LoggedIn(states[0].cell, Update(states[0].cell.generation, login))
    ensures login.token != states[0].cell.token
  {
    IssuedHoldsCell(states[0]);
    hide Inv, Smooth;
    SmoothStep(states, l, intent, login, 0);
    SmoothStep(states, l, intent, login, 1);
    SmoothStep(states, l, intent, login, 2);
    SmoothStep(states, l, intent, login, 3);
  }

  /** A leader that nobody disturbs and nothing fails replaces the stored tuple by its login, answers with it, and
      goes on to log out the old session if there was one. */
  lemma UndisturbedRotation(states: seq<State>, l: nat, intent: Intent, login: Auth)
    requires Smooth(states, l, intent, login) && Inv(states[0])
    ensures l in states[7].leaders && states[7].cell == login
    ensures var was := states[0].cell;
      states[7].leaders[l].at ==
        if was.generation != 0 && was.token != 0 then LoggingOut(was.token, Ok(login)) else Done(Ok(login))
  {
    SmoothLogIn(states, l, intent, login);
    hide Inv, Smooth;
    SmoothStep(states, l, intent, login, 4);
    SmoothStep(states, l, intent, login, 5);
    SmoothStep(states, l, intent, login, 6);
  }

  // ---- no login is left behind ----------------------------------------------------------------

  /** A failure to look at the store, or to reach the upstream, while cleaning up. */
  predicate CleanUpFails(m: Move) {
    m.CleanUpLoadFails? || m.ReloadFails? || m.SkipLogOut?
  }

  /** The token that a leader logged in with, while it may still have to be logged out. */
  function InHand(at: LeaderAt): nat {
    match at
    case LoginFailed(_, token, _) => token
    case LoggedIn(_, update) => update.auth.token
    case SwapFailed(_, update, _) => update.auth.token
    case LoggingOut(token, _) => token
    case _ => 0
  }

  /** Every token issued to the leader is in its hands, or was stored, or has been logged out. */
  ghost predicate Accounted(s: State, l: nat) {
    && (forall t :: t in s.issued && s.issued[t] == l ==>
      l in s.leaders && t != 0 && (InHand(s.leaders[l].at) == t || HeldToken(s.history, t) || t in s.loggedOut))
    && (l in s.leaders && s.leaders[l].at.SwapFailed? ==>
      var at := s.leaders[l].at; at.update.auth.token != 0 && at.update.auth.token != at.before.token)
    && (l in s.leaders && s.leaders[l].at.LoginFailed? ==>
      var at := s.leaders[l].at; at.token != 0 ==> at.token != at.before.token)
    && (l in s.leaders && s.leaders[l].at.LoggedIn? ==> s.leaders[l].at.update.auth.token != 0)
  }

  /** What another writer or leader does leaves the account alone. */
  lemma OthersKeepAccount(s: State, x: nat, m: Move, s': State, l: nat)
    requires Inv(s) && Step(s, x, m, s') && Accounted(s, l) && l != 0 && (x != l || m.Foreign?)
    ensures Accounted(s', l)
  {
    StepGrows(s, x, m, s');
    OthersIssueOthers(s, x, m, s', l);
    hide Inv, Step, HeldToken;
  }

  lemma StepGrows(s: State, x: nat, m: Move, s': State)
    requires Step(s, x, m, s')
    ensures forall t :: HeldToken(s.history, t) ==> HeldToken(s'.history, t)
    ensures s.loggedOut <= s'.loggedOut
  {
    LoggedOutGrows(s, x, m, s');
    HeldGrows(s.history, s'.history);
    hide Step, HeldToken;
  }

  lemma HeldGrows(h: seq<Commit>, h': seq<Commit>)
    requires h <= h'
    ensures forall t :: HeldToken(h, t) ==> HeldToken(h', t)
  {
    forall t | HeldToken(h, t)
      ensures HeldToken(h', t)
    {
      var i :| 0 <= i < |h| && h[i].auth.token == t;
      assert h'[i].auth.token == t;
    }
  }

  lemma OthersIssueOthers(s: State, x: nat, m: Move, s': State, l: nat)
    requires Step(s, x, m, s') && l != 0 && (x != l || m.Foreign?)
    ensures forall t :: t in s'.issued && s'.issued[t] == l ==> t in s.issued && s.issued[t] == l
    ensures l in s.leaders ==> l in s'.leaders && s'.leaders[l] == s.leaders[l]
    ensures l !in s.leaders ==> l !in s'.leaders
  {
  }

  /** The leader's own steps before it has logged in. */
  lemma EarlyKeepsAccount(s: State, l: nat, m: Move, s': State)
    requires Inv(s) && l in s.leaders && LeaderStep(s, l, m, s') && Accounted(s, l)
    requires m.Load? || m.LoadFails? || m.Identify? || m.IdentifyFails? || m.CheckOld? || m.CheckOldFails?
    ensures Accounted(s', l)
  {
    hide Inv, HeldToken;
  }

  lemma LogInKeepsAccount(s: State, l: nat, m: Move, s': State)
    requires Inv(s) && l in s.leaders && LeaderStep(s, l, m, s') && Accounted(s, l)
    requires m.LogIn? || m.LogInFails? || m.Cancel?
    ensures Accounted(s', l)
  {
    InvParts(s, l);
    if m.Cancel? {
      TokenIsNew(s, l);
    } else {
      StoredIsIssued(s, s.leaders[l].at.before);
    }
    hide Inv, Chained, HeldToken, HeldGeneration, WasStored;
  }

  lemma SwapKeepsAccount(s: State, l: nat, m: Move, s': State)
    requires Inv(s) && l in s.leaders && LeaderStep(s, l, m, s') && Accounted(s, l)
    requires m.Swap? || m.SwapConflicts? || m.SwapErrs? || m.SwapAppliedErrs?
    ensures Accounted(s', l)
  {
    var update := s.leaders[l].at.update;
    InvParts(s, l);
    HistoryGrows(s.history, Commit(update.auth, Some(update.expected)));
    TokenIsNew(s, l);
    hide Inv, Chained, HeldToken, HeldGeneration, WasStored;
  }

  lemma TokenIsNew(s: State, l: nat)
    requires Inv(s) && l in s.leaders && s.leaders[l].at.LoggedIn?
    ensures s.leaders[l].at.update.auth.token != s.leaders[l].at.before.token
  {
    InvParts(s, l);
  }

  lemma CleanUpKeepsAccount(s: State, l: nat, m: Move, s': State)
    requires Inv(s) && l in s.leaders && LeaderStep(s, l, m, s') && Accounted(s, l)
    requires m.CleanUp? || m.LogOut?
    ensures Accounted(s', l)
  {
    InvParts(s, l);
    ChainedOf(s);
    CellIsStored(s);
    hide Inv, Chained, HeldToken, HeldGeneration, WasStored;
  }

  lemma ReloadKeepsAccount(s: State, l: nat, s': State)
    requires Inv(s) && AllPast(s) && l in s.leaders && LeaderStep(s, l, Reload, s') && Accounted(s, l)
    ensures Accounted(s', l)
  {
    InvParts(s, l);
    ChainedOf(s);
    CellIsStored(s);
    if s.leaders[l].at.Swapped? {
      ReloadAfterSwap(s, l, s');
    }
    hide Inv, Chained, AllPast, HeldToken, HeldGeneration, WasStored;
  }

  lemma OwnKeepsAccount(s: State, l: nat, m: Move, s': State)
    requires Inv(s) && AllPast(s) && l in s.leaders && LeaderStep(s, l, m, s') && Accounted(s, l) && !CleanUpFails(m)
    ensures Accounted(s', l)
  {
    hide Inv, AllPast, LeaderStep, Accounted;
    if m.Reload? {
      ReloadKeepsAccount(s, l, s');
    } else if m.CleanUp? || m.LogOut? {
      CleanUpKeepsAccount(s, l, m, s');
    } else if m.LogIn? || m.LogInFails? || m.Cancel? {
      LogInKeepsAccount(s, l, m, s');
    } else if m.Swap? || m.SwapConflicts? || m.SwapErrs? || m.SwapAppliedErrs? {
      SwapKeepsAccount(s, l, m, s');
    } else {
      NoOtherMove(s, l, m, s');
      EarlyKeepsAccount(s, l, m, s');
    }
  }

  lemma NoOtherMove(s: State, l: nat, m: Move, s': State)
    requires l in s.leaders && LeaderStep(s, l, m, s')
    ensures !m.Foreign? && !m.Begin?
  {
  }

  lemma BeginKeepsAccount(s: State, l: nat, m: Move, s': State)
    requires Step(s, l, m, s') && m.Begin? && Accounted(s, l)
    ensures Accounted(s', l)
  {
    hide HeldToken;
  }

  lemma StepKeepsAccount(s: State, x: nat, m: Move, s': State, l: nat)
    requires Inv(s) && AllPast(s) && Step(s, x, m, s') && Accounted(s, l) && l != 0 && (x == l ==> !CleanUpFails(m))
    ensures Accounted(s', l)
  {
    hide Inv, AllPast, Accounted, LeaderStep;
    if x != l || m.Foreign? {
      OthersKeepAccount(s, x, m, s', l);
    } else if m.Begin? {
      BeginKeepsAccount(s, l, m, s');
    } else {
      OwnKeepsAccount(s, l, m, s');
    }
  }

  /** The leader's cleaning up never failed in the run. */
  predicate CleansUp(actions: seq<Action>, k: nat, l: nat) {
    forall j :: 0 <= j < k <= |actions| ==> !(actions[j].leader == l && CleanUpFails(actions[j].move))
  }

  lemma {:induction false} RunAccounts(states: seq<State>, actions: seq<Action>, k: nat, l: nat)
    requires Run(states, actions) && k < |states| && l != 0 && CleansUp(actions, k, l)
    ensures Accounted(states[k], l)
  {
    hide Inv, AllPast, Step, Accounted;
    if k > 0 {
      RunAccounts(states, actions, k - 1, l);
      RunKeepsPast(states, actions, k - 1);
      assert Step(states[k - 1], actions[k - 1].leader, actions[k - 1].move, states[k - 1 + 1]);
      StepKeepsAccount(states[k - 1], actions[k - 1].leader, actions[k - 1].move, states[k], l);
    } else {
      NothingIssued(states, actions, l);
    }
  }

  lemma NothingIssued(states: seq<State>, actions: seq<Action>, l: nat)
    requires Run(states, actions) && l != 0
    ensures Accounted(states[0], l)
  {
    hide Step;
  }

  /** No login is left behind: when a leader whose cleaning up did not fail is done, every token it was ever issued
      was stored, or has been logged out. */
  lemma NoLoginIsLeftBehind(states: seq<State>, actions: seq<Action>, k: nat, l: nat, token: nat)
    requires Run(states, actions) && k < |states| && CleansUp(actions, k, l)
    requires l in states[k].leaders && states[k].leaders[l].at.Done?
    requires token in states[k].issued && states[k].issued[token] == l
    ensures HeldToken(states[k].history, token) || token in states[k].loggedOut
  {
    RunKeepsInv(states, actions, k);
    InvParts(states[k], l);
    RunAccounts(states, actions, k, l);
    hide Run, Inv, HeldToken;
  }

  // ---- a new identity -------------------------------------------------------------------------

  /** A login goes by another device than the loaded tuple's. */
  predicate NewDevice(at: LeaderAt) {
    && (at.LoggingIn? ==> at.device != at.before.device)
    && (at.LoggedIn? ==> at.update.auth.device != at.before.device)
  }

  lemma StepKeepsDevice(s: State, x: nat, m: Move, s': State)
    requires Step(s, x, m, s') && forall l :: l in s.leaders ==> NewDevice(s.leaders[l].at)
    ensures forall l :: l in s'.leaders ==> NewDevice(s'.leaders[l].at)
  {
    hide LeaderStep;
    if !m.Foreign? && !m.Begin? {
      OwnKeepsDevice(s, x, m, s');
      OnlyItsLeader(s, x, m, s');
    }
  }

  lemma OwnKeepsDevice(s: State, l: nat, m: Move, s': State)
    requires l in s.leaders && LeaderStep(s, l, m, s') && NewDevice(s.leaders[l].at)
    ensures l in s'.leaders && NewDevice(s'.leaders[l].at)
  {
  }

  lemma {:induction false} RunKeepsDevice(states: seq<State>, actions: seq<Action>, k: nat)
    requires Run(states, actions) && k < |states|
    ensures forall l :: l in states[k].leaders ==> NewDevice(states[k].leaders[l].at)
  {
    hide Step, NewDevice;
    if k > 0 {
      RunKeepsDevice(states, actions, k - 1);
      assert Step(states[k - 1], actions[k - 1].leader, actions[k - 1].move, states[k - 1 + 1]);
      StepKeepsDevice(states[k - 1], actions[k - 1].leader, actions[k - 1].move, states[k]);
    }
  }

  /** Whatever a leader stores differs from what it replaces in generation, device and token. */
  lemma ReplacesTheIdentity(states: seq<State>, actions: seq<Action>, i: nat)
    requires Run(states, actions) && i < |actions| && actions[i].leader in states[i].leaders
    requires states[i].leaders[actions[i].leader].at.LoggedIn? && !actions[i].move.Foreign?
    requires states[i + 1].cell != states[i].cell
    ensures var was, now := states[i].cell, states[i + 1].cell;
      now.generation != was.generation && now.device != was.device && now.token != was.token
  {
    SwapIsExact(states, actions, i);
    RunKeepsDevice(states, actions, i);
    RunKeepsInv(states, actions, i);
    hide Run, Inv;
    StoredDiffers(states[i], actions[i].leader);
  }

  lemma StoredDiffers(s: State, l: nat)
    requires Inv(s) && l in s.leaders && s.leaders[l].at.LoggedIn?
    ensures var at := s.leaders[l].at;
      at.update.auth.token != at.before.token && at.update.auth.generation != at.before.generation
  {
    InvParts(s, l);
    StoredIsHeld(s.history, s.leaders[l].at.before);
  }
}

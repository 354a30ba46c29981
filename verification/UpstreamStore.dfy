/**
 The store of `internal/gateway/memory_store.go`: loading the default upstream, and the compare-and-swap that
 is the atomic step on which the rotation in `UpstreamAuth` rests.
 */
module UpstreamStore {
  import opened Wrappers
  import opened UpstreamAuth
  import Endpoints = EndpointTopology

  /** A stored source; `key` 1 is "default", a time of 0 is unset, and `complete` says that the required fields
      that a rotation never touches are there. */
  datatype Source = Source(id: nat, key: nat, auth: Auth, tokenUpdatedAt: nat, lastLoginAt: nat, loginError: nat,
    complete: bool)

  datatype Request = Request(source: nat, update: Update, at: nat)

  datatype StoreError = ErrContext | ErrBadRequest | ErrTopology | ErrNotFound | ErrConflicting

  const DEFAULT_KEY: nat := 1

  type Sources = map<nat, Source>
  type Rows = map<nat, Endpoints.Row>

  predicate ValidRequest(r: Request) {
    && r.source != 0 && r.update.auth.generation != 0 && r.update.auth.generation != r.update.expected
    && r.update.auth.device != 0 && r.update.auth.user != 0 && r.update.auth.token != 0 && r.at != 0
  }

  predicate Matches(sources: Sources, r: Request) {
    && r.source in sources && sources[r.source].id == r.source && sources[r.source].key == DEFAULT_KEY
    && sources[r.source].auth.generation == r.update.expected
  }

  /** The store with the new tuple in its default source, and nothing else changed but the login's record. */
  function Replaced(sources: Sources, r: Request): Sources
    requires r.source in sources
  {
    sources[r.source :=
      sources[r.source].(auth := r.update.auth, tokenUpdatedAt := r.at, lastLoginAt := r.at, loginError := 0)]
  }

  // ---- a store in order -----------------------------------------------------------------------

  /** A session is stored whole or not at all. */
  predicate ValidSource(s: Source, id: nat) {
    && s.id == id && id != 0 && s.key == DEFAULT_KEY && s.complete && s.auth.device != 0
    && (s.auth.generation != 0 ==>
      s.auth.user != 0 && s.auth.token != 0 && s.tokenUpdatedAt != 0 && s.lastLoginAt != 0)
  }

  /** Rows under their own ids, all of the source and well formed. */
  ghost predicate RowsValid(rows: Rows, id: nat) {
    forall k :: k in rows ==> rows[k].id == k && Endpoints.ValidRow(rows[k], id)
  }

  ghost predicate OneDefault(rows: Rows) {
    && (exists k :: k in rows && rows[k].isDefault && rows[k].enabled)
    && (forall a, b :: a in rows && b in rows && rows[a].isDefault && rows[b].isDefault ==> a == b)
  }

  /** The one source of a store in order, with one default endpoint, which is enabled. */
  ghost predicate InOrder(sources: Sources, rows: Rows, id: nat) {
    sources.Keys == {id} && ValidSource(sources[id], id) && RowsValid(rows, id) && OneDefault(rows)
  }

  /** `list` holds each row once. */
  ghost predicate Lists(list: seq<Endpoints.Row>, rows: Rows) {
    && (forall i :: 0 <= i < |list| ==> list[i].id in rows && rows[list[i].id] == list[i])
    && (forall i, j :: 0 <= i < j < |list| ==> list[i].id != list[j].id)
    && (forall k :: k in rows ==> rows[k] in list)
  }

  lemma DefaultsListed(list: seq<Endpoints.Row>, rows: Rows, id: nat)
    requires Lists(list, rows) && RowsValid(rows, id)
    ensures Endpoints.AllValid(list, id) && (Endpoints.Topology(list, id) <==> OneDefault(rows))
  {
    assert Endpoints.AllValid(list, id);
    if Endpoints.Topology(list, id) {
      var i: nat :| Endpoints.IsDefaultAt(list, id, i) && list[i].enabled;
      assert list[i].id in rows;
      forall a, b | a in rows && b in rows && rows[a].isDefault && rows[b].isDefault
        ensures a == b
      {
        var x :| 0 <= x < |list| && list[x] == rows[a];
        var y :| 0 <= y < |list| && list[y] == rows[b];
        assert Endpoints.IsDefaultAt(list, id, x) && Endpoints.IsDefaultAt(list, id, y);
      }
    }
    if OneDefault(rows) {
      var k :| k in rows && rows[k].isDefault && rows[k].enabled;
      var i :| 0 <= i < |list| && list[i] == rows[k];
      assert Endpoints.IsDefaultAt(list, id, i);
    }
  }

  // ---- the store ------------------------------------------------------------------------------

  /** What a swap answers and leaves: the first look at the context, the update's own validity, the second
      look, and then the match decide. A source that does not match is a conflict only if it is the default of
      a store in order; it is not found in a store in order with another default, or in an empty one. */
  ghost predicate Outcome(before: Sources, rows: Rows, r: Request, firstDone: bool, thenDone: bool,
      error: Option<StoreError>, after: Sources) {
    var looked := !firstDone && ValidRequest(r) && !thenDone;
    var missed := looked && !Matches(before, r);
    && (error.None? <==> looked && Matches(before, r))
    && after == (if error.None? then Replaced(before, r) else before)
    && (error == Some(ErrContext) <==> firstDone || (ValidRequest(r) && thenDone))
    && (error == Some(ErrBadRequest) <==> !firstDone && !ValidRequest(r))
    && (error == Some(ErrConflicting) <==> missed && InOrder(before, rows, r.source))
    && (error == Some(ErrNotFound) <==>
      missed && ((before == map[] && rows == map[]) || exists id: nat :: id != r.source && InOrder(before, rows, id)))
  }

  class MemoryStore {
    var sources: Sources
    var endpoints: Rows

    constructor ()
      ensures sources == map[] && endpoints == map[]
    {
      sources, endpoints := map[], map[];
    }

    /** Loads the default source, by its id. An empty store has none; any other that is not in order is an
        error of its own. */
    method LoadDefault() returns (found: Option<nat>, error: Option<StoreError>)
      ensures forall id: nat :: found == Some(id) <==> InOrder(sources, endpoints, id)
      ensures found.Some? <==> error.None?
      ensures error.Some? ==> error == Some(if sources == map[] && endpoints == map[] then ErrNotFound else ErrTopology)
    {
      if |sources| == 0 && |endpoints| == 0 {
        return None, Some(ErrNotFound);
      }
      if |sources| != 1 {
        return None, Some(ErrTopology);
      }
      var id :| id in sources;
      OnlyKey(sources, id);
      if sources[id].id != id {
        return None, Some(ErrTopology);
      }
      var all, valid := CollectRows(id);
      if !valid {
        return None, Some(ErrTopology);
      }
      DefaultsListed(all, endpoints, id);
      var invalid := Endpoints.ValidateEndpoints(all, id);
      if invalid.Some? || !ValidSource(sources[id], id) {
        return None, Some(ErrTopology);
      }
      return Some(id), None;
    }

    /** The rows of the map in some order, unless one of them is invalid. */
    method CollectRows(id: nat) returns (all: seq<Endpoints.Row>, valid: bool)
      ensures valid <==> RowsValid(endpoints, id)
      ensures valid ==> Lists(all, endpoints)
    {
      all := [];
      var rest := endpoints.Keys;
      while rest != {}
        invariant rest <= endpoints.Keys
        invariant forall k :: k in endpoints && k !in rest ==>
          endpoints[k].id == k && Endpoints.ValidRow(endpoints[k], id) && endpoints[k] in all
        invariant forall i :: 0 <= i < |all| ==>
          all[i].id in endpoints && all[i].id !in rest && endpoints[all[i].id] == all[i]
        invariant forall i, j :: 0 <= i < j < |all| ==> all[i].id != all[j].id
      {
        var k :| k in rest;
        var row := endpoints[k];
        if row.id != k || !Endpoints.ValidRow(row, id) {
          return all, false;
        }
        all := all + [row];
        rest := rest - {k};
      }
      valid := true;
    }

    /** Replaces the tuple of the default source if its generation is still the expected one. `firstDone` and
        `thenDone` are the two looks at the context. */
    method CompareAndSwap(r: Request, firstDone: bool, thenDone: bool) returns (error: Option<StoreError>)
      modifies this`sources
      ensures Outcome(old(sources), endpoints, r, firstDone, thenDone, error, sources)
      ensures error.None? <==>
        && !firstDone && !thenDone && ValidRequest(r) && r.source in old(sources)
        && var source := old(sources)[r.source];
          source.id == r.source && source.key == 1 && source.auth.generation == r.update.expected
    {
      if firstDone {
        return Some(ErrContext);
      }
      if !ValidRequest(r) {
        return Some(ErrBadRequest);
      }
      if thenDone {
        return Some(ErrContext);
      }
      var matched := r.source in sources;
      if matched {
        var source := sources[r.source];
        matched := source.id == r.source && source.key == DEFAULT_KEY && source.auth.generation == r.update.expected;
      }
      if !matched {
        var found, invalid := LoadDefault();
        if invalid.Some? {
          return invalid;
        }
        return Some(if found != Some(r.source) then ErrNotFound else ErrConflicting);
      }
      OtherDefault(sources, endpoints, r.source);
      var source := sources[r.source];
      source := source.(auth := r.update.auth, tokenUpdatedAt := r.at, lastLoginAt := r.at, loginError := 0);
      sources := sources[r.source := source];
      return None;
    }
  }

  lemma OnlyKey(sources: Sources, id: nat)
    requires |sources| == 1 && id in sources
    ensures sources.Keys == {id}
  {
    assert |sources.Keys - {id}| == 0;
  }

  lemma OtherDefault(sources: Sources, rows: Rows, id: nat)
    requires id in sources
    ensures forall x :: InOrder(sources, rows, x) ==> x == id
  {
  }

  // ---- the leader's step ----------------------------------------------------------------------

  /** The store is in order and holds the tuple that the leaders of `s` see. */
  ghost predicate Holds(sources: Sources, rows: Rows, id: nat, s: State) {
    InOrder(sources, rows, id) && sources[id].auth == s.cell
  }

  /** The leader's move that an answer of the store amounts to. */
  function MoveOf(error: Option<StoreError>): Move {
    match error
    case None => Swap
    case Some(ErrConflicting) => SwapConflicts
    case Some(_) => SwapErrs
  }

  function AfterAnswer(at: LeaderAt, error: Option<StoreError>): LeaderAt
    requires at.LoggedIn?
  {
    if error.None? then Swapped(at.before, at.update)
    else SwapFailed(at.before, at.update, error == Some(ErrConflicting))
  }

  /** A store in order stays in order, whatever is swapped in. */
  lemma SwapKeepsOrder(before: Sources, rows: Rows, id: nat, r: Request, firstDone: bool, thenDone: bool,
      error: Option<StoreError>, after: Sources)
    requires InOrder(before, rows, id) && Outcome(before, rows, r, firstDone, thenDone, error, after)
    ensures InOrder(after, rows, id)
    ensures error.None? ==>
      && r.source == id && after[id].auth == r.update.auth && before[id].auth.generation == r.update.expected
      && after[id].auth.generation != before[id].auth.generation && after[id].auth.generation != 0
      && after[id] == before[id].(auth := r.update.auth, tokenUpdatedAt := r.at, lastLoginAt := r.at, loginError := 0)
    ensures error.Some? ==> after == before
  {
  }

  /** A well-formed update is one that a store in order can take: its generation is new to that store, which
      holds a whole session afterwards, and so is in order still. */
  lemma ValidExactly(before: Sources, rows: Rows, r: Request)
    requires InOrder(before, rows, r.source) && before[r.source].auth.generation == r.update.expected
    ensures ValidRequest(r) <==>
      && InOrder(Replaced(before, r), rows, r.source)
      && Replaced(before, r)[r.source].auth.generation != 0
      && Replaced(before, r)[r.source].auth.generation != before[r.source].auth.generation
  {
  }

  /** On a store in order, whatever the swap answers is one step of the leader that asked for it, and the
      store goes on holding what the leaders see: success is `Swap`, a conflict `SwapConflicts`, and any other
      error `SwapErrs`, which applied nothing. */
  lemma SwapIsTheLeaderStep(s: State, l: nat, before: Sources, rows: Rows, r: Request, firstDone: bool, thenDone: bool,
      error: Option<StoreError>, after: Sources)
    requires Holds(before, rows, r.source, s) && Outcome(before, rows, r, firstDone, thenDone, error, after)
    requires l in s.leaders && s.leaders[l].at.LoggedIn? && s.leaders[l].at.update == r.update
    ensures exists s' ::
      && LeaderStep(s, l, MoveOf(error), s') && Holds(after, rows, r.source, s')
      && s'.leaders[l].at == AfterAnswer(s.leaders[l].at, error)
  {
    var at := AfterAnswer(s.leaders[l].at, error);
    var s' := if error.None? then To(Store(s, r.update.auth, Some(r.update.expected)), l, at) else To(s, l, at);
    SwapKeepsOrder(before, rows, r.source, r, firstDone, thenDone, error, after);
    assert LeaderStep(s, l, MoveOf(error), s');
  }
}

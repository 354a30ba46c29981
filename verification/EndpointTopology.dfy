/**
 The endpoint transactions of `internal/controlplane/upstream_endpoint.go` on a table of rows with unique
 indexes, and the topology that they must keep: one default endpoint per source, which is enabled.
 */
module EndpointTopology {
  import opened Wrappers

  /** A row; 0 stands for an empty id, key or URL. Rows are listed in the order of their creation. */
  datatype Row = Row(id: nat, source: nat, key: nat, url: nat, enabled: bool, isDefault: bool)

  datatype Input = Input(id: nat, key: nat, url: nat, enabled: bool, isDefault: bool)

  datatype Error = ErrInvalid | ErrNotFound | ErrForeign | ErrCollision | ErrTargeted | ErrUnique | ErrNoneEnabled | ErrDefault

  // ---- the table and its indexes --------------------------------------------------------------

  /** Two rows that the unique indexes do not allow side by side. */
  predicate Clash(a: Row, b: Row) {
    a.source == b.source && (a.key == b.key || a.url == b.url || (a.isDefault && b.isDefault))
  }

  ghost predicate Indexed(rows: seq<Row>) {
    && (forall i, j :: 0 <= i < j < |rows| ==> rows[i].id != rows[j].id && !Clash(rows[i], rows[j]))
    && (forall i :: 0 <= i < |rows| ==> rows[i].id != 0)
  }

  ghost predicate IsDefaultAt(rows: seq<Row>, source: nat, i: nat) {
    i < |rows| && rows[i].source == source && rows[i].isDefault
  }

  /** What `ValidateUpstreamEndpoints` demands of the rows of a source: keys and URLs, and one default
      endpoint, enabled. */
  ghost predicate Topology(rows: seq<Row>, source: nat) {
    && (exists i: nat :: IsDefaultAt(rows, source, i) && rows[i].enabled)
    && (forall i: nat, j: nat :: IsDefaultAt(rows, source, i) && IsDefaultAt(rows, source, j) ==> i == j)
    && (forall i :: 0 <= i < |rows| && rows[i].source == source ==> rows[i].key != 0 && rows[i].url != 0)
  }

  datatype TopologyError = NoEndpoints | InvalidEndpoint | MissingDefault | MultipleDefaults | DefaultDisabled

  predicate ValidRow(row: Row, source: nat) {
    row.id != 0 && row.source == source && row.key != 0 && row.url != 0
  }

  ghost predicate AllValid(rows: seq<Row>, source: nat) {
    forall i :: 0 <= i < |rows| ==> ValidRow(rows[i], source)
  }

  /** The program's own check, as it counts defaults. Rows of another source are an error. */
  method ValidateEndpoints(rows: seq<Row>, source: nat) returns (error: Option<TopologyError>)
    ensures error.None? <==> AllValid(rows, source) && Topology(rows, source)
    ensures error == Some(NoEndpoints) <==> |rows| == 0
    ensures error == Some(InvalidEndpoint) <==> !AllValid(rows, source)
    ensures error == Some(MissingDefault) <==>
      |rows| > 0 && AllValid(rows, source) && forall i: nat :: !IsDefaultAt(rows, source, i)
    ensures error == Some(DefaultDisabled) ==> exists i: nat :: IsDefaultAt(rows, source, i) && !rows[i].enabled
  {
    if |rows| == 0 {
      return Some(NoEndpoints);
    }
    var defaults := 0;
    var last := 0;
    for k := 0 to |rows|
      invariant defaults >= 0
      invariant defaults == 0 ==> forall i :: 0 <= i < k ==> !rows[i].isDefault
      invariant defaults > 0 ==> last < k && rows[last].isDefault
      invariant defaults == 1 ==> forall i :: 0 <= i < k && rows[i].isDefault ==> i == last
      invariant defaults > 1 ==> exists i :: 0 <= i < last && rows[i].isDefault
      invariant forall i :: 0 <= i < k ==> ValidRow(rows[i], source)
    {
      if !ValidRow(rows[k], source) {
        return Some(InvalidEndpoint);
      }
      if rows[k].isDefault {
        defaults := defaults + 1;
        last := k;
      }
    }
    if defaults == 0 {
      return Some(MissingDefault);
    }
    assert IsDefaultAt(rows, source, last);
    if defaults > 1 {
      var i :| 0 <= i < last && rows[i].isDefault;
      assert IsDefaultAt(rows, source, i);
      return Some(MultipleDefaults);
    }
    assert forall i: nat :: IsDefaultAt(rows, source, i) ==> i == last;
    if !rows[last].enabled {
      return Some(DefaultDisabled);
    }
    return None;
  }

  /** The table with `row` in place of the row of the same id, or behind all others. */
  function Put(rows: seq<Row>, row: Row): seq<Row> {
    if |rows| == 0 then [row]
    else if rows[0].id == row.id then [row] + rows[1..]
    else [rows[0]] + Put(rows[1..], row)
  }

  function IndexOf(rows: seq<Row>, id: nat): (i: nat)
    ensures i <= |rows| && (i < |rows| ==> rows[i].id == id)
    ensures forall k :: 0 <= k < i ==> rows[k].id != id
  {
    if |rows| == 0 || rows[0].id == id then 0 else 1 + IndexOf(rows[1..], id)
  }

  lemma {:induction false} PutAt(rows: seq<Row>, row: Row)
    ensures var i := IndexOf(rows, row.id);
      Put(rows, row) == if i < |rows| then rows[i := row] else rows + [row]
  {
    if |rows| > 0 && rows[0].id != row.id {
      PutAt(rows[1..], row);
    }
  }

  /** Saving fails when a unique index would be violated. */
  method Save(rows: seq<Row>, row: Row) returns (ok: bool, after: seq<Row>)
    ensures ok <==> forall k :: 0 <= k < |rows| && rows[k].id != row.id ==> !Clash(rows[k], row)
    ensures after == if ok then Put(rows, row) else rows
  {
    for i := 0 to |rows|
      invariant forall k :: 0 <= k < i && rows[k].id != row.id ==> !Clash(rows[k], row)
    {
      if rows[i].id != row.id && Clash(rows[i], row) {
        return false, rows;
      }
    }
    return true, Put(rows, row);
  }

  // ---- what an update comes to ----------------------------------------------------------------

  /** The row that an update starts from: the stored one, or a blank one under the new id. */
  function Subject(rows: seq<Row>, input: Input, source: nat, newID: nat): Row
    requires input.id == 0 || IndexOf(rows, input.id) < |rows|
  {
    if input.id == 0 then Row(newID, source, 0, 0, false, false) else rows[IndexOf(rows, input.id)]
  }

  predicate OtherUses(rows: seq<Row>, source: nat, id: nat, key: nat, url: nat) {
    exists i :: 0 <= i < |rows| && rows[i].id != id && rows[i].source == source && (rows[i].key == key || rows[i].url == url)
  }

  predicate OtherEnabled(rows: seq<Row>, source: nat, id: nat) {
    exists i :: 0 <= i < |rows| && rows[i].id != id && rows[i].source == source && rows[i].enabled
  }

  /** Exactly when an update goes through. `targets` are the keys that enabled route rules name. */
  predicate Accepts(rows: seq<Row>, input: Input, source: nat, newID: nat, targets: set<nat>) {
    && input.key != 0 && input.url != 0
    && (input.id != 0 ==> IndexOf(rows, input.id) < |rows| && rows[IndexOf(rows, input.id)].source == source)
    && var was := Subject(rows, input, source, newID);
      && !OtherUses(rows, source, was.id, input.key, input.url)
      && !(was.enabled && !input.enabled && input.key in targets)
      && (if input.isDefault then input.enabled
          else !was.isDefault || input.enabled || OtherEnabled(rows, source, was.id))
  }

  /** A reason to refuse an update, from the rows alone. */
  ghost predicate Refused(rows: seq<Row>, input: Input, source: nat, newID: nat, targets: set<nat>, error: Error) {
    var own := if input.id == 0 then newID else input.id;
    match error
    case ErrInvalid => input.key == 0 || input.url == 0
    case ErrNotFound => input.id != 0 && !exists r :: r in rows && r.id == input.id
    case ErrForeign => input.id != 0 && exists r :: r in rows && r.id == input.id && r.source != source
    case ErrCollision =>
      exists r :: r in rows && r.id != own && r.source == source && (r.key == input.key || r.url == input.url)
    case ErrTargeted =>
      !input.enabled && input.key in targets && input.id != 0 && exists r :: r in rows && r.id == input.id && r.enabled
    case ErrUnique =>
      input.isDefault && !input.enabled && exists r :: r in rows && r.id != own && r.source == source && r.enabled
    case ErrNoneEnabled =>
      !input.enabled && !exists r :: r in rows && r.id != own && r.source == source && r.enabled
    case ErrDefault => false
  }

  /** The order in which the reasons are looked at. */
  function Rank(error: Error): nat {
    match error
    case ErrInvalid => 0
    case ErrNotFound => 1
    case ErrForeign => 2
    case ErrCollision => 3
    case ErrTargeted => 4
    case _ => 5
  }

  lemma OthersAre(rows: seq<Row>, source: nat, id: nat, key: nat, url: nat)
    ensures OtherUses(rows, source, id, key, url)
      <==> exists r :: r in rows && r.id != id && r.source == source && (r.key == key || r.url == url)
    ensures OtherEnabled(rows, source, id) <==> exists r :: r in rows && r.id != id && r.source == source && r.enabled
  {
    if r :| r in rows && r.id != id && r.source == source && (r.key == key || r.url == url) {
      var i :| 0 <= i < |rows| && rows[i] == r;
    }
    if r :| r in rows && r.id != id && r.source == source && r.enabled {
      var i :| 0 <= i < |rows| && rows[i] == r;
    }
  }

  /** The one row with an id, as the indexes have it. */
  lemma OwnRow(rows: seq<Row>, id: nat)
    requires Indexed(rows)
    ensures IndexOf(rows, id) < |rows| <==> exists r :: r in rows && r.id == id
    ensures forall r :: r in rows && r.id == id ==> IndexOf(rows, id) < |rows| && r == rows[IndexOf(rows, id)]
  {
    var i := IndexOf(rows, id);
    if i < |rows| {
      assert rows[i] in rows;
    }
    forall r | r in rows && r.id == id
      ensures i < |rows| && r == rows[i]
    {
      var k :| 0 <= k < |rows| && rows[k] == r;
    }
  }

  /** With the topology in order, giving up a default is no more than leaving another endpoint enabled. */
  lemma DefaultIsEnabledElsewhere(rows: seq<Row>, source: nat, id: nat)
    requires Indexed(rows) && Topology(rows, source)
    requires IndexOf(rows, id) < |rows| && rows[IndexOf(rows, id)].source == source ==> !rows[IndexOf(rows, id)].isDefault
    ensures OtherEnabled(rows, source, id)
  {
    var d: nat :| IsDefaultAt(rows, source, d) && rows[d].enabled;
    OwnRow(rows, id);
    assert rows[d] in rows;
  }

  /** An update goes through exactly when there is no reason to refuse it. */
  lemma AcceptedUnlessRefused(rows: seq<Row>, input: Input, source: nat, newID: nat, targets: set<nat>)
    requires Indexed(rows) && Topology(rows, source) && newID != 0 && IndexOf(rows, newID) == |rows|
    ensures Accepts(rows, input, source, newID, targets)
      <==> forall e :: !Refused(rows, input, source, newID, targets, e)
  {
    RefusedIs(rows, input, source, newID, targets);
    hide Topology, Indexed, OtherUses, OtherEnabled, IndexOf, Refused;
    if Accepts(rows, input, source, newID, targets) {
      if !input.isDefault && !input.enabled && !Subject(rows, input, source, newID).isDefault {
        DefaultIsEnabledElsewhere(rows, source, Subject(rows, input, source, newID).id);
      }
      NeverErrDefault(rows, input, source, newID, targets);
    } else {
      Unaccepted(rows, input, source, newID, targets);
    }
  }

  /** What is not accepted has one of these reasons. */
  lemma Unaccepted(rows: seq<Row>, input: Input, source: nat, newID: nat, targets: set<nat>)
    requires Indexed(rows) && newID != 0 && IndexOf(rows, newID) == |rows|
    requires !Accepts(rows, input, source, newID, targets)
    ensures exists e :: Refused(rows, input, source, newID, targets, e)
  {
    RefusedIs(rows, input, source, newID, targets);
    hide Indexed, OtherUses, OtherEnabled, IndexOf, Refused;
  }

  lemma NeverErrDefault(rows: seq<Row>, input: Input, source: nat, newID: nat, targets: set<nat>)
    ensures !Refused(rows, input, source, newID, targets, ErrDefault)
  {
  }

  /** The reasons in the terms of the program's checks. */
  lemma RefusedIs(rows: seq<Row>, input: Input, source: nat, newID: nat, targets: set<nat>)
    requires Indexed(rows) && newID != 0 && IndexOf(rows, newID) == |rows|
    ensures var at := IndexOf(rows, input.id);
      var own := if input.id == 0 then newID else input.id;
      && (Refused(rows, input, source, newID, targets, ErrInvalid) <==> input.key == 0 || input.url == 0)
      && (Refused(rows, input, source, newID, targets, ErrNotFound) <==> input.id != 0 && at == |rows|)
      && (Refused(rows, input, source, newID, targets, ErrForeign)
          <==> input.id != 0 && at < |rows| && rows[at].source != source)
      && (Refused(rows, input, source, newID, targets, ErrCollision) <==> OtherUses(rows, source, own, input.key, input.url))
      && (Refused(rows, input, source, newID, targets, ErrTargeted)
          <==> !input.enabled && input.key in targets && input.id != 0 && at < |rows| && rows[at].enabled)
      && (Refused(rows, input, source, newID, targets, ErrUnique)
          <==> input.isDefault && !input.enabled && OtherEnabled(rows, source, own))
      && (Refused(rows, input, source, newID, targets, ErrNoneEnabled)
          <==> !input.enabled && !OtherEnabled(rows, source, own))
  {
    var own := if input.id == 0 then newID else input.id;
    OwnRow(rows, input.id);
    OthersAre(rows, source, own, input.key, input.url);
    if IndexOf(rows, input.id) < |rows| {
      assert rows[IndexOf(rows, input.id)] in rows;
    }
    hide Indexed, OtherUses, OtherEnabled;
  }

  /** The reason that an update is given: one that applies, and none before it does. */
  ghost predicate FirstReason(rows: seq<Row>, input: Input, source: nat, newID: nat, targets: set<nat>, error: Error) {
    && Refused(rows, input, source, newID, targets, error)
    && forall e :: Rank(e) < Rank(error) ==> !Refused(rows, input, source, newID, targets, e)
  }

  /** The program's checks, one after the other, find the first reason: those of the input and its row, */
  lemma EarlyReasons(rows: seq<Row>, input: Input, source: nat, newID: nat, targets: set<nat>)
    requires Indexed(rows) && newID != 0 && IndexOf(rows, newID) == |rows|
    ensures var at := IndexOf(rows, input.id);
      if input.key == 0 || input.url == 0 then FirstReason(rows, input, source, newID, targets, ErrInvalid)
      else if input.id != 0 && at == |rows| then FirstReason(rows, input, source, newID, targets, ErrNotFound)
      else if input.id != 0 && rows[at].source != source then FirstReason(rows, input, source, newID, targets, ErrForeign)
      else forall e :: Rank(e) < 3 ==> !Refused(rows, input, source, newID, targets, e)
  {
    RefusedIs(rows, input, source, newID, targets);
    hide Indexed, OtherUses, OtherEnabled, Refused;
  }

  /** and those of the other rows. */
  lemma LateReasons(rows: seq<Row>, input: Input, source: nat, newID: nat, targets: set<nat>)
    requires Indexed(rows) && newID != 0 && IndexOf(rows, newID) == |rows|
    requires input.id != 0 ==> IndexOf(rows, input.id) < |rows|
    requires forall e :: Rank(e) < 3 ==> !Refused(rows, input, source, newID, targets, e)
    ensures var was := Subject(rows, input, source, newID);
      if OtherUses(rows, source, was.id, input.key, input.url) then
        FirstReason(rows, input, source, newID, targets, ErrCollision)
      else if was.enabled && !input.enabled && input.key in targets then
        FirstReason(rows, input, source, newID, targets, ErrTargeted)
      else
        && (input.isDefault && !input.enabled && OtherEnabled(rows, source, was.id) ==>
          FirstReason(rows, input, source, newID, targets, ErrUnique))
        && (!input.enabled && !OtherEnabled(rows, source, was.id) ==>
          FirstReason(rows, input, source, newID, targets, ErrNoneEnabled))
  {
    RefusedIs(rows, input, source, newID, targets);
    hide Indexed, OtherUses, OtherEnabled, Refused;
  }

  function Clear(row: Row, source: nat, id: nat): Row {
    if row.source == source && row.id != id && row.isDefault then row.(isDefault := false) else row
  }

  /** The rows of a source without competing defaults. */
  function Cleared(rows: seq<Row>, source: nat, id: nat): seq<Row> {
    seq(|rows|, i requires 0 <= i < |rows| => Clear(rows[i], source, id))
  }

  /** Taking the default flag off a row never violates an index. */
  lemma UnsetSaves(rows: seq<Row>, i: nat)
    requires Indexed(rows) && i < |rows|
    ensures var row := rows[i].(isDefault := false);
      && (forall k :: 0 <= k < |rows| && rows[k].id != row.id ==> !Clash(rows[k], row))
      && Put(rows, row) == rows[i := row] && Indexed(rows[i := row])
  {
    var row := rows[i].(isDefault := false);
    assert IndexOf(rows, row.id) == i;
    PutAt(rows, row);
    forall k | 0 <= k < |rows| && rows[k].id != row.id
      ensures !Clash(rows[k], row)
    {
      assert if k < i then !Clash(rows[k], rows[i]) else !Clash(rows[i], rows[k]);
    }
    hide IndexOf, Put;
    SaveableIsIndexed(rows, row);
  }

  method ClearDefaults(rows: seq<Row>, source: nat, id: nat) returns (ok: bool, after: seq<Row>)
    requires Indexed(rows)
    ensures ok && after == Cleared(rows, source, id) && Indexed(after)
  {
    hide Indexed, Put, Clash;
    after := rows;
    for i := 0 to |rows|
      invariant |after| == |rows| && Indexed(after)
      invariant forall k :: 0 <= k < i ==> after[k] == Clear(rows[k], source, id)
      invariant forall k :: i <= k < |rows| ==> after[k] == rows[k]
    {
      if rows[i].source == source && rows[i].id != id && rows[i].isDefault {
        UnsetSaves(after, i);
        ok, after := Save(after, after[i].(isDefault := false));
      }
    }
    ok := true;
  }

  /** The first enabled row of a source. */
  function FirstEnabled(rows: seq<Row>, source: nat): (i: nat)
    ensures i <= |rows| && (i < |rows| ==> rows[i].source == source && rows[i].enabled)
    ensures forall k :: 0 <= k < i ==> !(rows[k].source == source && rows[k].enabled)
  {
    if |rows| == 0 || (rows[0].source == source && rows[0].enabled) then 0 else 1 + FirstEnabled(rows[1..], source)
  }

  predicate HasEnabledDefault(rows: seq<Row>, source: nat) {
    exists i :: 0 <= i < |rows| && rows[i].source == source && rows[i].enabled && rows[i].isDefault
  }

  /** The table after the row is saved and before a default is promoted. */
  function Saved(rows: seq<Row>, input: Input, source: nat, was: Row): seq<Row> {
    var row := Row(was.id, was.source, input.key, input.url, input.enabled, input.isDefault);
    Put(if input.isDefault && !was.isDefault then Cleared(rows, source, was.id) else rows, row)
  }

  /** What an accepted update leaves: the row as asked for, and a default even when it gave up its own. */
  function Updated(rows: seq<Row>, input: Input, source: nat, was: Row): seq<Row> {
    var saved := Saved(rows, input, source, was);
    var i := FirstEnabled(saved, source);
    if HasEnabledDefault(saved, source) || i == |saved| then saved
    else saved[i := saved[i].(isDefault := true)]
  }

  // ---- lemmas about the saved table -----------------------------------------------------------

  lemma SaveableIsIndexed(rows: seq<Row>, row: Row)
    requires Indexed(rows) && row.id != 0
    requires forall k :: 0 <= k < |rows| && rows[k].id != row.id ==> !Clash(rows[k], row)
    ensures Indexed(Put(rows, row))
  {
    PutAt(rows, row);
  }

  lemma ClearedIs(rows: seq<Row>, source: nat, id: nat)
    requires Indexed(rows)
    ensures IndexOf(Cleared(rows, source, id), id) == IndexOf(rows, id)
  {
    var i := IndexOf(rows, id);
    var c := Cleared(rows, source, id);
    assert forall k :: 0 <= k < |rows| ==> c[k].id == rows[k].id;
  }

  /** The rows that an update saves into, its own row aside. */
  function Base(rows: seq<Row>, input: Input, source: nat, was: Row): seq<Row> {
    if input.isDefault && !was.isDefault then Cleared(rows, source, was.id) else rows
  }

  ghost predicate Fits(rows: seq<Row>, source: nat, was: Row) {
    && was.id != 0 && was.source == source
    && (if IndexOf(rows, was.id) < |rows| then rows[IndexOf(rows, was.id)] == was else !was.isDefault && !was.enabled)
  }

  /** Saving the row itself never violates an index once collisions are ruled out. */
  lemma RowIsSaveable(rows: seq<Row>, input: Input, source: nat, was: Row)
    requires Indexed(rows) && Fits(rows, source, was)
    requires !OtherUses(rows, source, was.id, input.key, input.url)
    ensures var row := Row(was.id, was.source, input.key, input.url, input.enabled, input.isDefault);
      forall k :: 0 <= k < |rows| && rows[k].id != was.id ==> !Clash(Base(rows, input, source, was)[k], row)
  {
    var row := Row(was.id, was.source, input.key, input.url, input.enabled, input.isDefault);
    var base := Base(rows, input, source, was);
    forall k | 0 <= k < |rows| && rows[k].id != was.id
      ensures !Clash(base[k], row)
    {
      var i := IndexOf(rows, was.id);
      assert rows[k].source == source ==> rows[k].key != input.key && rows[k].url != input.url;
      if was.isDefault {
        assert k < i ==> !Clash(rows[k], rows[i]);
        assert i < k ==> !Clash(rows[i], rows[k]);
      }
    }
  }

  /** Where each row of the saved table comes from; `at` is the row's own place. */
  ghost predicate SavedFrom(rows: seq<Row>, saved: seq<Row>, input: Input, source: nat, was: Row, at: nat) {
    && at <= |rows| && |saved| == (if at < |rows| then |rows| else |rows| + 1)
    && saved[at] == Row(was.id, source, input.key, input.url, input.enabled, input.isDefault)
    && (at < |rows| ==> rows[at] == was)
    && (at == |rows| ==> !was.isDefault && !was.enabled)
    && was.source == source
    && (forall k :: 0 <= k < |rows| && k != at ==>
      && rows[k].id != was.id
      && saved[k] == if input.isDefault && !was.isDefault then Clear(rows[k], source, was.id) else rows[k])
  }

  lemma SavedRows(rows: seq<Row>, input: Input, source: nat, was: Row)
    requires Indexed(rows) && Fits(rows, source, was)
    ensures SavedFrom(rows, Saved(rows, input, source, was), input, source, was, IndexOf(rows, was.id))
  {
    var row := Row(was.id, was.source, input.key, input.url, input.enabled, input.isDefault);
    ClearedIs(rows, source, was.id);
    PutAt(Base(rows, input, source, was), row);
  }

  lemma SavedIsIndexed(rows: seq<Row>, input: Input, source: nat, was: Row)
    requires Indexed(rows) && Fits(rows, source, was)
    requires !OtherUses(rows, source, was.id, input.key, input.url)
    ensures Indexed(Saved(rows, input, source, was))
  {
    var base := Base(rows, input, source, was);
    assert Indexed(base);
    RowIsSaveable(rows, input, source, was);
    SaveableIsIndexed(base, Row(was.id, was.source, input.key, input.url, input.enabled, input.isDefault));
  }

  // ---- the default after an update ------------------------------------------------------------

  lemma DefaultsFrom(rows: seq<Row>, saved: seq<Row>, input: Input, source: nat, was: Row, at: nat)
    requires SavedFrom(rows, saved, input, source, was, at) && Topology(rows, source)
    ensures input.isDefault ==> forall i: nat :: IsDefaultAt(saved, source, i) <==> i == at
    ensures !input.isDefault && was.isDefault ==> forall i: nat :: !IsDefaultAt(saved, source, i)
    ensures !input.isDefault && !was.isDefault ==>
      OneDefault(saved, source)
  {
    var d: nat :| IsDefaultAt(rows, source, d) && rows[d].enabled;
    if was.isDefault {
      assert IsDefaultAt(rows, source, at);
    }
    forall i: nat | IsDefaultAt(saved, source, i) && i != at && !(input.isDefault && !was.isDefault)
      ensures i == d
    {
      assert IsDefaultAt(rows, source, i);
    }
    if !input.isDefault && !was.isDefault {
      assert d != at && saved[d] == rows[d];
    }
  }

  lemma EnabledFrom(rows: seq<Row>, saved: seq<Row>, input: Input, source: nat, was: Row, at: nat)
    requires SavedFrom(rows, saved, input, source, was, at)
    ensures FirstEnabled(saved, source) < |saved| <==> input.enabled || OtherEnabled(rows, source, was.id)
  {
    if OtherEnabled(rows, source, was.id) {
      var i :| 0 <= i < |rows| && rows[i].id != was.id && rows[i].source == source && rows[i].enabled;
      assert i != at;
      assert saved[i].enabled && saved[i].source == source;
    }
    var i := FirstEnabled(saved, source);
    if i < |saved| && !input.enabled {
      assert i != at;
      assert rows[i].enabled && rows[i].source == source && rows[i].id != was.id;
    }
  }

  /** Which rows of the saved table are default. */
  lemma SavedDefaults(rows: seq<Row>, input: Input, source: nat, was: Row)
    requires Indexed(rows) && Fits(rows, source, was) && Topology(rows, source)
    ensures var saved := Saved(rows, input, source, was);
      && (input.isDefault ==> forall i: nat :: IsDefaultAt(saved, source, i) <==> i == IndexOf(rows, was.id))
      && (!input.isDefault && was.isDefault ==> forall i: nat :: !IsDefaultAt(saved, source, i))
      && (!input.isDefault && !was.isDefault ==>
        OneDefault(saved, source))
  {
    SavedRows(rows, input, source, was);
    var at := IndexOf(rows, was.id);
    DefaultsFrom(rows, Saved(rows, input, source, was), input, source, was, at);
  }

  /** An enabled row of the saved table. */
  lemma SavedEnabled(rows: seq<Row>, input: Input, source: nat, was: Row)
    requires Indexed(rows) && Fits(rows, source, was)
    ensures var saved := Saved(rows, input, source, was);
      FirstEnabled(saved, source) < |saved| <==> input.enabled || OtherEnabled(rows, source, was.id)
  {
    SavedRows(rows, input, source, was);
    EnabledFrom(rows, Saved(rows, input, source, was), input, source, was, IndexOf(rows, was.id));
  }

  /** Promoting works unless another row is default already. */
  lemma PromotionSaves(saved: seq<Row>, source: nat)
    requires Indexed(saved) && FirstEnabled(saved, source) < |saved|
    ensures var i := FirstEnabled(saved, source);
      var row := saved[i].(isDefault := true);
      && Put(saved, row) == saved[i := row]
      && ((forall k :: 0 <= k < |saved| && saved[k].id != row.id ==> !Clash(saved[k], row))
          <==> forall k: nat :: IsDefaultAt(saved, source, k) ==> k == i)
  {
    var i := FirstEnabled(saved, source);
    var row := saved[i].(isDefault := true);
    assert IndexOf(saved, row.id) == i;
    PutAt(saved, row);
    forall k: nat | k < |saved| && k != i && !saved[k].isDefault
      ensures !Clash(saved[k], row)
    {
      assert if k < i then !Clash(saved[k], saved[i]) else !Clash(saved[i], saved[k]);
    }
    if forall k: nat :: IsDefaultAt(saved, source, k) ==> k == i {
      forall k | 0 <= k < |saved| && saved[k].id != row.id
        ensures !Clash(saved[k], row)
      {
        if saved[k].isDefault && saved[k].source == source {
          assert IsDefaultAt(saved, source, k);
        }
      }
    }
    forall k: nat | IsDefaultAt(saved, source, k) && k != i
      ensures saved[k].id != row.id && Clash(saved[k], row)
    {
    }
  }

  lemma UpdatedKeepsIndexes(saved: seq<Row>, source: nat)
    requires Indexed(saved) && FirstEnabled(saved, source) < |saved|
    requires forall k: nat :: !IsDefaultAt(saved, source, k)
    ensures var i := FirstEnabled(saved, source); Indexed(saved[i := saved[i].(isDefault := true)])
  {
    PromotionSaves(saved, source);
    var i := FirstEnabled(saved, source);
    SaveableIsIndexed(saved, saved[i].(isDefault := true));
  }

  lemma PromotedTopology(saved: seq<Row>, source: nat)
    requires FirstEnabled(saved, source) < |saved|
    requires forall k: nat :: !IsDefaultAt(saved, source, k)
    requires forall i :: 0 <= i < |saved| && saved[i].source == source ==> saved[i].key != 0 && saved[i].url != 0
    ensures var i := FirstEnabled(saved, source); Topology(saved[i := saved[i].(isDefault := true)], source)
  {
    var i := FirstEnabled(saved, source);
    var after := saved[i := saved[i].(isDefault := true)];
    assert IsDefaultAt(after, source, i) && after[i].enabled;
    forall k: nat | IsDefaultAt(after, source, k)
      ensures k == i
    {
      assert k != i ==> IsDefaultAt(saved, source, k);
    }
  }

  lemma SavedKeys(rows: seq<Row>, input: Input, source: nat, was: Row)
    requires Indexed(rows) && Fits(rows, source, was) && Topology(rows, source) && input.key != 0 && input.url != 0
    ensures var saved := Saved(rows, input, source, was);
      forall i :: 0 <= i < |saved| && saved[i].source == source ==> saved[i].key != 0 && saved[i].url != 0
  {
    SavedRows(rows, input, source, was);
    hide Saved, Indexed, Fits;
  }

  lemma NoDefault(saved: seq<Row>, source: nat)
    requires forall i: nat :: !IsDefaultAt(saved, source, i)
    ensures !HasEnabledDefault(saved, source)
  {
    forall i | 0 <= i < |saved|
      ensures !(saved[i].source == source && saved[i].enabled && saved[i].isDefault)
    {
      assert !IsDefaultAt(saved, source, i);
    }
  }

  ghost predicate OneDefault(rows: seq<Row>, source: nat) {
    && HasEnabledDefault(rows, source)
    && forall i: nat, j: nat :: IsDefaultAt(rows, source, i) && IsDefaultAt(rows, source, j) ==> i == j
  }

  ghost predicate Promotable(rows: seq<Row>, source: nat) {
    FirstEnabled(rows, source) < |rows| && forall i: nat :: !IsDefaultAt(rows, source, i)
  }

  /** An update that may go through saves a table with its one default, or with one to promote. */
  lemma SavedIsEither(rows: seq<Row>, saved: seq<Row>, input: Input, source: nat, was: Row, at: nat)
    requires SavedFrom(rows, saved, input, source, was, at) && Topology(rows, source)
    requires if input.isDefault then input.enabled else !was.isDefault || input.enabled || OtherEnabled(rows, source, was.id)
    ensures OneDefault(saved, source) || Promotable(saved, source)
  {
    DefaultsFrom(rows, saved, input, source, was, at);
    EnabledFrom(rows, saved, input, source, was, at);
    hide Topology, OtherEnabled;
    if input.isDefault {
      assert saved[at].isDefault && saved[at].enabled && saved[at].source == source;
    }
  }

  lemma OneDefaultIsTopology(rows: seq<Row>, source: nat)
    requires OneDefault(rows, source)
    requires forall i :: 0 <= i < |rows| && rows[i].source == source ==> rows[i].key != 0 && rows[i].url != 0
    ensures Topology(rows, source)
  {
    var i :| 0 <= i < |rows| && rows[i].source == source && rows[i].enabled && rows[i].isDefault;
    assert IsDefaultAt(rows, source, i);
  }

  /** An accepted update keeps the topology and the indexes. */
  lemma UpdatedKeepsTopology(rows: seq<Row>, input: Input, source: nat, was: Row)
    requires Indexed(rows) && Topology(rows, source) && Fits(rows, source, was)
    requires input.key != 0 && input.url != 0 && !OtherUses(rows, source, was.id, input.key, input.url)
    requires if input.isDefault then input.enabled else !was.isDefault || input.enabled || OtherEnabled(rows, source, was.id)
    ensures var after := Updated(rows, input, source, was); Topology(after, source) && Indexed(after)
  {
    SavedIsIndexed(rows, input, source, was);
    SavedKeys(rows, input, source, was);
    SavedRows(rows, input, source, was);
    var saved := Saved(rows, input, source, was);
    SavedIsEither(rows, saved, input, source, was, IndexOf(rows, was.id));
    hide Saved, SavedFrom, Indexed, OtherUses, OtherEnabled, FirstEnabled, Fits, Topology, HasEnabledDefault;
    if OneDefault(saved, source) {
      OneDefaultIsTopology(saved, source);
    } else {
      NoDefault(saved, source);
      UpdatedKeepsIndexes(saved, source);
      PromotedTopology(saved, source);
    }
  }

  /** The first enabled endpoint of the source, in the order of creation. */
  ghost predicate IsFirstEnabled(rows: seq<Row>, source: nat, k: nat) {
    && k < |rows| && rows[k].source == source && rows[k].enabled
    && forall j :: 0 <= j < k ==> !(rows[j].source == source && rows[j].enabled)
  }

  /** `after` has the row as asked for, and every other row as it was but for the default flag; the default is the
      row if asked, else the old one, else the first enabled endpoint. */
  ghost predicate UpdatedFrom(rows: seq<Row>, after: seq<Row>, input: Input, source: nat, was: Row, at: nat) {
    && |after| == (if at < |rows| then |rows| else |rows| + 1) && at < |after|
    && after[at] == Row(was.id, source, input.key, input.url, input.enabled, after[at].isDefault)
    && (forall k :: 0 <= k < |rows| && k != at ==>
      && after[k] == rows[k].(isDefault := after[k].isDefault)
      && (rows[k].source != source ==> after[k] == rows[k]))
    && (input.isDefault ==> forall k: nat :: IsDefaultAt(after, source, k) <==> k == at)
    && (!input.isDefault && !was.isDefault ==>
      forall k: nat :: IsDefaultAt(after, source, k) <==> IsDefaultAt(rows, source, k))
    && (!input.isDefault && was.isDefault ==>
      forall k: nat :: IsDefaultAt(after, source, k) <==> IsFirstEnabled(after, source, k))
  }

  lemma SavedIsUpdated(rows: seq<Row>, saved: seq<Row>, input: Input, source: nat, was: Row, at: nat)
    requires SavedFrom(rows, saved, input, source, was, at) && Topology(rows, source) && at <= |rows|
    requires OneDefault(saved, source) && (input.isDefault || !was.isDefault)
    ensures UpdatedFrom(rows, saved, input, source, was, at)
  {
    DefaultsFrom(rows, saved, input, source, was, at);
    if !input.isDefault {
      forall k: nat
        ensures IsDefaultAt(saved, source, k) <==> IsDefaultAt(rows, source, k)
      {
      }
    }
    hide OneDefault, Topology;
  }

  lemma PromotedIsUpdated(rows: seq<Row>, saved: seq<Row>, input: Input, source: nat, was: Row, at: nat)
    requires SavedFrom(rows, saved, input, source, was, at) && at <= |rows|
    requires Promotable(saved, source) && !input.isDefault && was.isDefault
    ensures var i := FirstEnabled(saved, source);
      UpdatedFrom(rows, saved[i := saved[i].(isDefault := true)], input, source, was, at)
  {
    var i := FirstEnabled(saved, source);
    var after := saved[i := saved[i].(isDefault := true)];
    forall k: nat
      ensures IsDefaultAt(after, source, k) <==> k == i
    {
      assert k != i ==> (IsDefaultAt(after, source, k) <==> IsDefaultAt(saved, source, k));
    }
    assert IsFirstEnabled(after, source, i);
  }

  /** What an accepted update leaves, row by row. */
  lemma UpdatedExactly(rows: seq<Row>, input: Input, source: nat, was: Row)
    requires Indexed(rows) && Topology(rows, source) && Fits(rows, source, was)
    requires if input.isDefault then input.enabled else !was.isDefault || input.enabled || OtherEnabled(rows, source, was.id)
    ensures UpdatedFrom(rows, Updated(rows, input, source, was), input, source, was, IndexOf(rows, was.id))
  {
    SavedRows(rows, input, source, was);
    SavedDefaults(rows, input, source, was);
    var saved, at := Saved(rows, input, source, was), IndexOf(rows, was.id);
    SavedIsEither(rows, saved, input, source, was, at);
    hide Saved, SavedFrom, Indexed, OtherEnabled, FirstEnabled, Fits, Topology, HasEnabledDefault, UpdatedFrom;
    if OneDefault(saved, source) {
      EitherDefault(saved, source);
      SavedIsUpdated(rows, saved, input, source, was, at);
    } else {
      NoDefault(saved, source);
      PromotedOnlyThen(rows, input, source, was);
      PromotedIsUpdated(rows, saved, input, source, was, at);
    }
  }

  lemma EitherDefault(saved: seq<Row>, source: nat)
    requires OneDefault(saved, source)
    ensures HasEnabledDefault(saved, source) && exists i: nat :: IsDefaultAt(saved, source, i)
  {
    var i :| 0 <= i < |saved| && saved[i].source == source && saved[i].enabled && saved[i].isDefault;
    assert IsDefaultAt(saved, source, i);
  }

  /** A default is promoted only when the row gave up its own. */
  lemma PromotedOnlyThen(rows: seq<Row>, input: Input, source: nat, was: Row)
    requires Indexed(rows) && Fits(rows, source, was) && Topology(rows, source)
    requires Promotable(Saved(rows, input, source, was), source) && !OneDefault(Saved(rows, input, source, was), source)
    ensures !input.isDefault && was.isDefault
  {
    SavedDefaults(rows, input, source, was);
    hide Saved, Indexed, Fits, Topology, OneDefault;
    assert input.isDefault ==> IsDefaultAt(Saved(rows, input, source, was), source, IndexOf(rows, was.id));
  }

  // ---- the transactions -----------------------------------------------------------------------

  class EndpointTable {
    var rows: seq<Row>

    constructor (rows: seq<Row>)
      ensures this.rows == rows
    {
      this.rows := rows;
    }

    /** Creates or updates an endpoint. An aborted transaction leaves the table as it was. */
    method Upsert(input: Input, source: nat, newID: nat, targets: set<nat>) returns (error: Option<Error>)
      requires Indexed(rows) && Topology(rows, source)
      requires newID != 0 && IndexOf(rows, newID) == |rows|
      modifies this
      ensures error.None? <==> Accepts(old(rows), input, source, newID, targets)
      ensures error.Some? ==> FirstReason(old(rows), input, source, newID, targets, error.value)
      ensures error.None? ==> rows == Updated(old(rows), input, source, Subject(old(rows), input, source, newID))
      ensures error.Some? ==> rows == old(rows)
      ensures Indexed(rows) && Topology(rows, source)
    {
      EarlyReasons(rows, input, source, newID, targets);
      hide Indexed, Topology, Updated, FirstEnabled, OtherUses, OtherEnabled, FirstReason, Refused;
      if input.key == 0 || input.url == 0 {
        return Some(ErrInvalid);
      }
      if input.id != 0 {
        var at := IndexOf(rows, input.id);
        if at == |rows| {
          return Some(ErrNotFound);
        }
        if rows[at].source != source {
          return Some(ErrForeign);
        }
      }
      LateReasons(rows, input, source, newID, targets);
      var record := Subject(rows, input, source, newID);
      SubjectFits(rows, input, source, newID);
      var collision := FindCollision(rows, source, record.id, input.key, input.url);
      if collision {
        return Some(ErrCollision);
      }
      if record.enabled && !input.enabled && input.key in targets {
        return Some(ErrTargeted);
      }
      var after;
      error, after := SaveAndPromote(rows, input, source, record);
      if error.None? {
        UpdatedKeepsTopology(rows, input, source, record);
        rows := after;
      }
    }

    /** Deletes an endpoint that is neither the default nor the target of an enabled rule. */
    method Delete(id: nat, source: nat, targets: set<nat>) returns (error: Option<Error>)
      requires Indexed(rows) && Topology(rows, source)
      modifies this
      ensures error.None? <==>
        var i := IndexOf(old(rows), id);
        i < |old(rows)| && old(rows)[i].source == source && !old(rows)[i].isDefault && old(rows)[i].key !in targets
      ensures error.Some? ==>
        var i := IndexOf(old(rows), id);
        error.value ==
          if i == |old(rows)| then ErrNotFound
          else if old(rows)[i].source != source then ErrForeign
          else if old(rows)[i].isDefault then ErrDefault
          else ErrTargeted
      ensures error.None? ==> var i := IndexOf(old(rows), id); i < |old(rows)| && rows == old(rows)[..i] + old(rows)[i + 1..]
      ensures error.Some? ==> rows == old(rows)
      ensures Indexed(rows) && Topology(rows, source)
    {
      var i := IndexOf(rows, id);
      if i == |rows| {
        return Some(ErrNotFound);
      }
      if rows[i].source != source {
        return Some(ErrForeign);
      }
      if rows[i].isDefault {
        return Some(ErrDefault);
      }
      if rows[i].key in targets {
        return Some(ErrTargeted);
      }
      DeleteKeepsTopology(rows, source, i);
      rows := rows[..i] + rows[i + 1..];
      return None;
    }
  }

  lemma DeleteKeepsTopology(rows: seq<Row>, source: nat, i: nat)
    requires Indexed(rows) && Topology(rows, source) && i < |rows| && !rows[i].isDefault
    ensures Indexed(rows[..i] + rows[i + 1..]) && Topology(rows[..i] + rows[i + 1..], source)
  {
    var after := rows[..i] + rows[i + 1..];
    assert forall k :: 0 <= k < |after| ==> after[k] == rows[if k < i then k else k + 1];
    var d: nat :| IsDefaultAt(rows, source, d) && rows[d].enabled;
    assert IsDefaultAt(after, source, if d < i then d else d - 1);
    forall a: nat, b: nat | IsDefaultAt(after, source, a) && IsDefaultAt(after, source, b)
      ensures a == b
    {
      assert IsDefaultAt(rows, source, if a < i then a else a + 1) && IsDefaultAt(rows, source, if b < i then b else b + 1);
    }
  }

  lemma SubjectFits(rows: seq<Row>, input: Input, source: nat, newID: nat)
    requires Indexed(rows) && newID != 0 && IndexOf(rows, newID) == |rows|
    requires input.id != 0 ==> IndexOf(rows, input.id) < |rows| && rows[IndexOf(rows, input.id)].source == source
    ensures Fits(rows, source, Subject(rows, input, source, newID))
  {
  }

  method FindCollision(rows: seq<Row>, source: nat, id: nat, key: nat, url: nat) returns (found: bool)
    ensures found <==> OtherUses(rows, source, id, key, url)
  {
    for i := 0 to |rows|
      invariant forall k :: 0 <= k < i ==> !(rows[k].id != id && rows[k].source == source && (rows[k].key == key || rows[k].url == url))
    {
      if rows[i].source == source && (rows[i].key == key || rows[i].url == url) && rows[i].id != id {
        return true;
      }
    }
    return false;
  }

  /** The saving half of an update: competing defaults go, the row is saved, and a default is promoted when
      none is left. Promoting fails on the index when the row just saved is a disabled default. */
  method SaveAndPromote(rows: seq<Row>, input: Input, source: nat, was: Row) returns (error: Option<Error>,
      after: seq<Row>)
    requires Indexed(rows) && Topology(rows, source) && Fits(rows, source, was)
    requires input.key != 0 && input.url != 0 && !OtherUses(rows, source, was.id, input.key, input.url)
    ensures error.None? <==>
      if input.isDefault then input.enabled else !was.isDefault || input.enabled || OtherEnabled(rows, source, was.id)
    ensures error.None? ==> after == Updated(rows, input, source, was)
    ensures error.Some? ==> error == Some(if OtherEnabled(rows, source, was.id) then ErrUnique else ErrNoneEnabled)
  {
    SavedDefaults(rows, input, source, was);
    SavedEnabled(rows, input, source, was);
    SavedIsIndexed(rows, input, source, was);
    SavedRows(rows, input, source, was);
    hide Saved, Indexed, Topology, OtherUses, OtherEnabled, FirstEnabled, Fits;
    after := SaveRow(rows, input, source, was);
    var has := FindEnabledDefault(after, source);
    if has {
      EnabledDefaultIs(after, source);
      return None, after;
    }
    var i := FirstEnabled(after, source);
    if i == |after| {
      return Some(ErrNoneEnabled), after;
    }
    hide SavedFrom;
    PromotionSaves(after, source);
    NotEnabledDefault(after, source, i);
    var ok;
    ok, after := Save(after, after[i].(isDefault := true));
    if !ok {
      return Some(ErrUnique), after;
    }
    return None, after;
  }

  /** Clears competing defaults when the row becomes the default, and saves the row. */
  method SaveRow(rows: seq<Row>, input: Input, source: nat, was: Row) returns (after: seq<Row>)
    requires Indexed(rows) && Fits(rows, source, was) && !OtherUses(rows, source, was.id, input.key, input.url)
    ensures after == Saved(rows, input, source, was)
  {
    RowIsSaveable(rows, input, source, was);
    BaseIds(rows, input, source, was);
    hide Indexed, Fits, OtherUses;
    after := rows;
    var ok := true;
    if input.isDefault && !was.isDefault {
      ok, after := ClearDefaults(rows, source, was.id);
    }
    ok, after := Save(after, Row(was.id, was.source, input.key, input.url, input.enabled, input.isDefault));
  }

  lemma EnabledDefaultIs(rows: seq<Row>, source: nat)
    requires HasEnabledDefault(rows, source)
    ensures exists i: nat :: IsDefaultAt(rows, source, i) && rows[i].enabled
  {
    var i :| 0 <= i < |rows| && rows[i].source == source && rows[i].enabled && rows[i].isDefault;
    assert IsDefaultAt(rows, source, i);
  }

  lemma BaseIds(rows: seq<Row>, input: Input, source: nat, was: Row)
    ensures var base := Base(rows, input, source, was);
      |base| == |rows| && forall k :: 0 <= k < |rows| ==> base[k].id == rows[k].id
  {
  }

  lemma NotEnabledDefault(rows: seq<Row>, source: nat, i: nat)
    requires !HasEnabledDefault(rows, source) && i < |rows| && rows[i].source == source && rows[i].enabled
    ensures !IsDefaultAt(rows, source, i)
  {
  }

  method FindEnabledDefault(rows: seq<Row>, source: nat) returns (found: bool)
    ensures found <==> HasEnabledDefault(rows, source)
  {
    for i := 0 to |rows|
      invariant forall k :: 0 <= k < i ==> !(rows[k].source == source && rows[k].enabled && rows[k].isDefault)
    {
      if rows[i].source == source && rows[i].enabled && rows[i].isDefault {
        return true;
      }
    }
    return false;
  }

  // ---- route rules ----------------------------------------------------------------------------

  /** An enabled rule that names this key finds an enabled endpoint. */
  predicate Served(rows: seq<Row>, source: nat, key: nat) {
    exists i :: 0 <= i < |rows| && rows[i].source == source && rows[i].enabled && rows[i].key == key
  }

  lemma PromotionServesSame(saved: seq<Row>, source: nat, i: nat, key: nat)
    requires i < |saved|
    ensures Served(saved[i := saved[i].(isDefault := true)], source, key) <==> Served(saved, source, key)
  {
    var after := saved[i := saved[i].(isDefault := true)];
    if Served(saved, source, key) {
      var k :| 0 <= k < |saved| && saved[k].source == source && saved[k].enabled && saved[k].key == key;
      assert after[k].source == source && after[k].enabled && after[k].key == key;
    }
    if Served(after, source, key) {
      var k :| 0 <= k < |after| && after[k].source == source && after[k].enabled && after[k].key == key;
      assert saved[k].source == source && saved[k].enabled && saved[k].key == key;
    }
  }

  /** A row other than the one at `at` serves the key. */
  predicate ServedElsewhere(rows: seq<Row>, source: nat, at: nat, key: nat) {
    exists i :: 0 <= i < |rows| && i != at && rows[i].source == source && rows[i].enabled && rows[i].key == key
  }

  lemma ServedSomewhere(rows: seq<Row>, source: nat, at: nat, key: nat)
    ensures Served(rows, source, key) <==>
      || (at < |rows| && rows[at].source == source && rows[at].enabled && rows[at].key == key)
      || ServedElsewhere(rows, source, at, key)
  {
  }

  lemma UpdatedServesSame(rows: seq<Row>, input: Input, source: nat, was: Row, key: nat)
    ensures Served(Updated(rows, input, source, was), source, key) <==> Served(Saved(rows, input, source, was), source, key)
  {
    hide Saved, Served, HasEnabledDefault;
    var saved := Saved(rows, input, source, was);
    var f := FirstEnabled(saved, source);
    if f < |saved| {
      PromotionServesSame(saved, source, f, key);
    }
  }

  lemma SavedServes(rows: seq<Row>, saved: seq<Row>, input: Input, source: nat, was: Row, at: nat, key: nat)
    requires SavedFrom(rows, saved, input, source, was, at)
    ensures Served(saved, source, key) <==>
      || (input.enabled && input.key == key)
      || ServedElsewhere(rows, source, at, key)
  {
    if Served(saved, source, key) {
      var k :| 0 <= k < |saved| && saved[k].source == source && saved[k].enabled && saved[k].key == key;
      assert k != at ==> rows[k].source == source && rows[k].enabled && rows[k].key == key;
    }
    if input.enabled && input.key == key {
      assert saved[at].enabled;
    }
    if i :| 0 <= i < |rows| && i != at && rows[i].source == source && rows[i].enabled && rows[i].key == key {
      assert saved[i].source == source && saved[i].enabled && saved[i].key == key;
    }
  }

  /** The guard against stranding a rule looks up the rules of the new key. So an accepted update leaves a
      served rule without an endpoint exactly when it renames the endpoint that the rule names. */
  lemma RuleIsStrandedByRename(rows: seq<Row>, input: Input, source: nat, newID: nat, targets: set<nat>, key: nat)
    requires Indexed(rows) && Topology(rows, source) && newID != 0 && IndexOf(rows, newID) == |rows|
    requires Accepts(rows, input, source, newID, targets) && key in targets && Served(rows, source, key)
    ensures var was := Subject(rows, input, source, newID);
      !Served(Updated(rows, input, source, was), source, key) <==> was.enabled && was.key == key && input.key != key
  {
    var was := Subject(rows, input, source, newID);
    SubjectFits(rows, input, source, newID);
    var at := IndexOf(rows, was.id);
    UpdatedServesSame(rows, input, source, was, key);
    SavedRows(rows, input, source, was);
    hide Topology, Indexed, OtherUses, OtherEnabled, Saved, Updated, Served;
    StrandedFrom(rows, Saved(rows, input, source, was), input, source, was, at, key);
  }

  lemma StrandedFrom(rows: seq<Row>, saved: seq<Row>, input: Input, source: nat, was: Row, at: nat, key: nat)
    requires Indexed(rows) && SavedFrom(rows, saved, input, source, was, at) && Served(rows, source, key)
    requires was.enabled && !input.enabled ==> input.key != key
    ensures !Served(saved, source, key) <==> was.enabled && was.key == key && input.key != key
  {
    OthersShareNoKey(rows, source, at);
    SavedServes(rows, saved, input, source, was, at, key);
    ServedSomewhere(rows, source, at, key);
    hide Served, Indexed;
    if was.enabled && was.key == key {
      assert !ServedElsewhere(rows, source, at, key);
    }
  }

  lemma OthersShareNoKey(rows: seq<Row>, source: nat, at: nat)
    requires Indexed(rows)
    ensures at < |rows| ==>
      forall i :: 0 <= i < |rows| && i != at && rows[i].source == rows[at].source ==> rows[i].key != rows[at].key
  {
    if at < |rows| {
      forall i | 0 <= i < |rows| && i != at && rows[i].source == rows[at].source
        ensures rows[i].key != rows[at].key
      {
        assert if i < at then !Clash(rows[i], rows[at]) else !Clash(rows[at], rows[i]);
      }
    }
  }

  /** Deleting strands no rule: the guard there looks up the endpoint's own key. */
  lemma DeleteStrandsNoRule(rows: seq<Row>, source: nat, i: nat, targets: set<nat>, key: nat)
    requires i < |rows| && rows[i].key !in targets && key in targets && Served(rows, source, key)
    ensures Served(rows[..i] + rows[i + 1..], source, key)
  {
    var after := rows[..i] + rows[i + 1..];
    var k :| 0 <= k < |rows| && rows[k].source == source && rows[k].enabled && rows[k].key == key;
    assert after[if k < i then k else k - 1] == rows[k];
  }

  /** A concrete case: an endpoint that a rule names is renamed and disabled in one update, which is accepted. */
  lemma RenameStrandsARule()
    ensures var rows := [Row(1, 7, 10, 100, true, true), Row(2, 7, 20, 200, true, false)];
      var input := Input(2, 30, 200, false, false);
      && Indexed(rows) && Topology(rows, 7) && Accepts(rows, input, 7, 3, {20}) && Served(rows, 7, 20)
      && !Served(Updated(rows, input, 7, Subject(rows, input, 7, 3)), 7, 20)
  {
    var rows := [Row(1, 7, 10, 100, true, true), Row(2, 7, 20, 200, true, false)];
    var input := Input(2, 30, 200, false, false);
    assert IsDefaultAt(rows, 7, 0) && rows[0].enabled;
    assert rows[1].source == 7 && rows[1].enabled && rows[1].key == 20;
    assert IndexOf(rows, 2) == 1 by { assert IndexOf(rows[1..], 2) == 0; }
    assert IndexOf(rows, 3) == 2 by { assert rows[1..][1..] == []; assert IndexOf(rows[1..], 3) == 1; }
    RuleIsStrandedByRename(rows, input, 7, 3, {20}, 20);
  }
}

/**
 The paged scan behind negative filters, `internal/gateway/personalquery.go`: batches of a backend list are
 fetched, excluded items dropped, and a page of the rest collected, within a limit of 2000 scanned items.
 */
module NegativeScan {
  // The intended page is the one of the first 2000 items. The scan checks its limit only when it appends an
  // item, so within the last batch it may append one item from beyond them.

  const BATCH_LIMIT: int := 100
  const ITEM_LIMIT: int := 2000

  /** An id of 0 is a missing one. */
  datatype Item = Item(id: nat, body: nat)

  // ---- the excluded ids -----------------------------------------------------------------------

  datatype PlaybackState = PlaybackState(
    itemID: nat, orphaned: bool, inStructure: bool, played: bool, favorite: bool, resumable: bool)

  /** Which of the three filters a query negates. */
  datatype Negative = Negative(played: bool, favorite: bool, resumable: bool)

  /** The state has one of the negated properties. */
  predicate Negated(s: PlaybackState, n: Negative) {
    (n.played && s.played) || (n.favorite && s.favorite) || (n.resumable && s.resumable)
  }

  method ExcludeSet(states: seq<PlaybackState>, n: Negative) returns (exclude: set<nat>)
    ensures forall id :: id in exclude <==>
      exists s :: s in states && s.itemID == id && !s.orphaned && s.inStructure && Negated(s, n)
  {
    exclude := {};
    for k := 0 to |states|
      invariant forall id :: id in exclude <==>
        exists s :: s in states[..k] && s.itemID == id && !s.orphaned && s.inStructure && Negated(s, n)
    {
      var s := states[k];
      assert states[..k + 1] == states[..k] + [s];
      if s.orphaned || !s.inStructure {
        continue;
      }
      if n.played && s.played {
        exclude := exclude + {s.itemID};
      }
      if n.favorite && s.favorite {
        exclude := exclude + {s.itemID};
      }
      if n.resumable && s.resumable {
        exclude := exclude + {s.itemID};
      }
    }
    assert states[..|states|] == states;
  }

  // ---- filter, then page ----------------------------------------------------------------------

  predicate Dropped(i: Item, exclude: set<nat>) {
    i.id != 0 && i.id in exclude
  }

  function Kept(items: seq<Item>, exclude: set<nat>): seq<Item> {
    if |items| == 0 then []
    else
      var i := items[|items| - 1];
      Kept(items[..|items| - 1], exclude) + (if Dropped(i, exclude) then [] else [i])
  }

  function Max0(n: int): nat {
    if n < 0 then 0 else n
  }

  function Min(a: int, b: int): int {
    if a < b then a else b
  }

  function Skip(s: seq<Item>, start: int): seq<Item> {
    s[Min(Max0(start), |s|)..]
  }

  function First(s: seq<Item>, n: nat): seq<Item> {
    s[..Min(n, |s|)]
  }

  /** The kept items of the first `n` entries, past the first `start` of them. */
  function Rest(list: seq<Item>, n: int, exclude: set<nat>, start: int): seq<Item>
    requires n >= 0
  {
    Skip(Kept(list[..Min(n, |list|)], exclude), start)
  }

  /** The page a caller expects. */
  function FilterThenPage(list: seq<Item>, exclude: set<nat>, start: int, limit: int): seq<Item> {
    First(Rest(list, ITEM_LIMIT, exclude, start), Max0(EffectiveLimit(limit)))
  }

  function EffectiveLimit(limit: int): int {
    if limit <= 0 then ITEM_LIMIT else limit
  }

  function BatchSize(limit: int): (b: int)
    ensures b >= 100
  {
    var b := if limit <= 0 then BATCH_LIMIT else limit * 3;
    if b < BATCH_LIMIT then BATCH_LIMIT else b
  }

  /** Where the batch that reaches the 2000th item ends. */
  function Window(b: int): (w: int)
    requires b > 0
    ensures w >= 2000
  {
    RoundsUp(b);
    (ITEM_LIMIT + b - 1) / b * b
  }

  lemma RoundsUp(b: int)
    requires b > 0
    ensures (2000 + b - 1) / b * b >= 2000
  {
    var n := 2000 + b - 1;
    assert n == n / b * b + n % b;
  }

  /** The 2000th item made it onto the page, so the scan stopped at it. */
  predicate StopsAtLimit(list: seq<Item>, exclude: set<nat>, start: int) {
    |list| >= ITEM_LIMIT && !Dropped(list[ITEM_LIMIT - 1], exclude) && |Rest(list, ITEM_LIMIT, exclude, start)| > 0
  }

  /** What the scan yields: the expected page, and at most one item more. */
  function Scanned(list: seq<Item>, exclude: set<nat>, start: int, limit: int): seq<Item> {
    Yielded(Rest(list, ITEM_LIMIT, exclude, start), Rest(list, Window(BatchSize(limit)), exclude, start),
            EffectiveLimit(limit), StopsAtLimit(list, exclude, start))
  }

  /** The page of the first 2000 items, cut off at the limit, or with the next item that the last batch holds. */
  function Yielded(page: seq<Item>, beyond: seq<Item>, limit: int, stops: bool): seq<Item>
    requires limit > 0
  {
    if |page| >= limit then page[..limit]
    else if stops || |beyond| <= |page| then page
    else page + [beyond[|page|]]
  }

  // ---- lemmas ---------------------------------------------------------------------------------

  lemma KeptNext(list: seq<Item>, k: nat, exclude: set<nat>)
    requires k < |list|
    ensures Kept(list[..k + 1], exclude)
         == if Dropped(list[k], exclude) then Kept(list[..k], exclude) else Kept(list[..k], exclude) + [list[k]]
  {
    assert list[..k + 1][..k] == list[..k];
  }

  lemma RestNext(list: seq<Item>, k: nat, exclude: set<nat>, start: int)
    requires k < |list|
    ensures var s, s' := Kept(list[..k], exclude), Kept(list[..k + 1], exclude);
      if Dropped(list[k], exclude) then s' == s
      else
        && s' == s + [list[k]]
        && (if |s| < start then Skip(s, start) == Skip(s', start) == [] else Skip(s', start) == Skip(s, start) + [list[k]])
  {
    KeptNext(list, k, exclude);
  }

  lemma {:induction false} KeptGrows(list: seq<Item>, j: nat, k: nat, exclude: set<nat>)
    requires j <= k <= |list|
    ensures Kept(list[..j], exclude) <= Kept(list[..k], exclude)
    decreases k - j
  {
    if j < k {
      KeptGrows(list, j, k - 1, exclude);
      KeptNext(list, k - 1, exclude);
    }
  }

  lemma SkipGrows(a: seq<Item>, b: seq<Item>, start: int)
    requires a <= b
    ensures Skip(a, start) <= Skip(b, start)
  {
  }

  /** The batches end at multiples of their size, so the one that passes 2000 ends at the window. */
  lemma LastWindow(s: int, q: int, b: int)
    requires b > 0 && s == q * b && s < 2000 <= s + b
    ensures Window(b) == s + b
  {
    assert (q + 1) * b == s + b;
    QuotientIs(2000 + b - 1, b, q + 1);
  }

  lemma QuotientIs(n: int, b: int, q: int)
    requires b > 0 && q * b <= n < q * b + b
    ensures n / b == q
  {
    var d := n / b;
    assert n == d * b + n % b;
    assert (d + 1) * b == d * b + b && (q + 1) * b == q * b + b;
    if d < q {
      MulOrder(d + 1, q, b);
    } else if d > q {
      MulOrder(q + 1, d, b);
    }
  }

  lemma MulOrder(a: int, c: int, b: int)
    requires a <= c && b > 0
    ensures a * b <= c * b
  {
  }

  // ---- the scan -------------------------------------------------------------------------------

  /** The scan's variables after `k` items, none of which ended it. */
  ghost predicate Scanning(list: seq<Item>, exclude: set<nat>, start: int, limit: int, k: nat, items: seq<Item>,
      skipped: int) {
    && k <= |list|
    && items == Skip(Kept(list[..k], exclude), start)
    && skipped == Min(Max0(start), |Kept(list[..k], exclude)|)
    && |items| < limit
    && (k >= 2000 ==> items == Skip(Kept(list[..2000], exclude), start) && (Dropped(list[1999], exclude) || |items| == 0))
  }

  lemma ScanningStarts(list: seq<Item>, exclude: set<nat>, start: int, limit: int)
    requires limit > 0
    ensures Scanning(list, exclude, start, limit, 0, [], 0)
  {
  }

  /** What one item does to the scan. */
  lemma ScanningNext(list: seq<Item>, exclude: set<nat>, start: int, limit: int, k: nat, items: seq<Item>, skipped: int)
    requires Scanning(list, exclude, start, limit, k, items, skipped) && k < |list|
    ensures |items| < limit && skipped <= Max0(start)
    ensures Dropped(list[k], exclude) ==> Scanning(list, exclude, start, limit, k + 1, items, skipped)
    ensures !Dropped(list[k], exclude) && skipped < start ==> Scanning(list, exclude, start, limit, k + 1, items, skipped + 1)
    ensures !Dropped(list[k], exclude) && skipped >= start ==>
      && Skip(Kept(list[..k + 1], exclude), start) == items + [list[k]]
      && (|items| + 1 < limit && k + 1 < 2000 ==> Scanning(list, exclude, start, limit, k + 1, items + [list[k]], skipped))
  {
    RestNext(list, k, exclude, start);
  }

  /** A scan that appends item `k` and then stops has its result. */
  lemma StopsAt(list: seq<Item>, exclude: set<nat>, start: int, limit: int, k: nat, items: seq<Item>, skipped: int)
    requires Scanning(list, exclude, start, EffectiveLimit(limit), k, items, skipped) && k < |list|
    requires !Dropped(list[k], exclude) && skipped >= start && k < Window(BatchSize(limit))
    requires |items| + 1 >= EffectiveLimit(limit) || k + 1 >= 2000
    ensures items + [list[k]] == Scanned(list, exclude, start, limit)
  {
    ScanningNext(list, exclude, start, EffectiveLimit(limit), k, items, skipped);
    var w := Window(BatchSize(limit));
    WindowReaches(BatchSize(limit));
    var got := items + [list[k]];
    KeptGrows(list, k + 1, Min(w, |list|), exclude);
    SkipGrows(Kept(list[..k + 1], exclude), Kept(list[..Min(w, |list|)], exclude), start);
    if k < 2000 {
      KeptGrows(list, k + 1, Min(2000, |list|), exclude);
      SkipGrows(Kept(list[..k + 1], exclude), Kept(list[..Min(2000, |list|)], exclude), start);
    }
  }

  lemma WindowReaches(b: int)
    requires b > 0
    ensures Window(b) >= 2000
  {
    hide Window;
  }

  /** A scan that runs out of items has its result. */
  lemma RunsOut(list: seq<Item>, exclude: set<nat>, start: int, limit: int, k: nat, items: seq<Item>, skipped: int)
    requires Scanning(list, exclude, start, EffectiveLimit(limit), k, items, skipped)
    requires k == |list| <= Window(BatchSize(limit)) || (k >= 2000 && k == Window(BatchSize(limit)))
    ensures items == Scanned(list, exclude, start, limit)
  {
    WindowReaches(BatchSize(limit));
    if k < 2000 {
      assert list[..k] == list;
    }
  }

  ghost predicate Finished(list: seq<Item>, exclude: set<nat>, start: int, limit: int, scanned: int, items: seq<Item>) {
    items == Scanned(list, exclude, start, limit) && (scanned >= ITEM_LIMIT || |items| >= EffectiveLimit(limit))
  }

  /** One item of a batch, as the inner loop handles it. */
  method Consider(list: seq<Item>, exclude: set<nat>, start: int, limit: int, k: nat, items: seq<Item>, skipped: int)
    returns (items': seq<Item>, skipped': int, stop: bool)
    requires k < |list| && k < Window(BatchSize(limit))
    requires Scanning(list, exclude, start, EffectiveLimit(limit), k, items, skipped)
    ensures !stop ==> Scanning(list, exclude, start, EffectiveLimit(limit), k + 1, items', skipped') && |items'| < EffectiveLimit(limit)
    ensures stop ==> Finished(list, exclude, start, limit, k + 1, items')
  {
    ScanningNext(list, exclude, start, EffectiveLimit(limit), k, items, skipped);
    hide Window, Kept, Skip;
    if Dropped(list[k], exclude) {
      return items, skipped, false;
    }
    if skipped < start {
      return items, skipped + 1, false;
    }
    items', skipped' := items + [list[k]], skipped;
    stop := |items'| >= EffectiveLimit(limit) || k + 1 >= ITEM_LIMIT;
    if stop {
      StopsAt(list, exclude, start, limit, k, items, skipped);
    }
  }

  /** The scan against a backend that serves exact slices of `list`. */
  method ScanNegative(list: seq<Item>, exclude: set<nat>, start: int, limit: int) returns (items: seq<Item>)
    ensures items == Scanned(list, exclude, start, limit)
  {
    hide Scanned, Scanning, Window;
    var pageLimit := limit;
    var noLimit := limit <= 0;
    var batchLimit := limit * 3;
    if noLimit {
      pageLimit := ITEM_LIMIT;
      batchLimit := BATCH_LIMIT;
    }
    if batchLimit < BATCH_LIMIT {
      batchLimit := BATCH_LIMIT;
    }
    items := [];
    var skipped, scanned, backendStart := 0, 0, 0;
    ghost var batches := 0;
    ghost var finished := false;
    ScanningStarts(list, exclude, start, pageLimit);
    WindowReaches(batchLimit);
    while scanned < ITEM_LIMIT && |items| < pageLimit
      invariant if finished then Finished(list, exclude, start, limit, scanned, items)
                else InStep(list, exclude, start, limit, backendStart, scanned, batches, items, skipped)
      decreases !finished, |list| - scanned
    {
      Between(list, exclude, start, limit, backendStart, scanned, batches, items, skipped);
      var batch := list[backendStart..Min(backendStart + batchLimit, |list|)];
      if |batch| == 0 {
        break;
      }
      var i := 0;
      while i < |batch|
        invariant 0 <= i <= |batch| && !finished && scanned == backendStart + i
        invariant Scanning(list, exclude, start, pageLimit, scanned, items, skipped) && |items| < pageLimit
      {
        var stop;
        items, skipped, stop := Consider(list, exclude, start, limit, scanned, items, skipped);
        scanned := scanned + 1;
        i := i + 1;
        if stop {
          finished := true;
          break;
        }
      }
      backendStart := backendStart + |batch|;
      batches := batches + 1;
      if !finished && |batch| == batchLimit {
        assert batches * batchLimit == (batches - 1) * batchLimit + batchLimit;
      }
      if |batch| < batchLimit {
        break;
      }
    }
    if !finished {
      RunsOut(list, exclude, start, limit, scanned, items, skipped);
    }
  }

  /** The scan's variables at the head of the outer loop. */
  ghost predicate InStep(list: seq<Item>, exclude: set<nat>, start: int, limit: int, backendStart: int, scanned: int,
                         batches: int, items: seq<Item>, skipped: int) {
    && 0 <= backendStart == scanned <= |list| && backendStart == batches * BatchSize(limit)
    && scanned <= Window(BatchSize(limit)) && (scanned >= 2000 ==> scanned == Window(BatchSize(limit)))
    && |items| < EffectiveLimit(limit)
    && Scanning(list, exclude, start, EffectiveLimit(limit), scanned, items, skipped)
  }

  /** The next batch stays within the window, and ends at it once it passes 2000. */
  lemma Between(list: seq<Item>, exclude: set<nat>, start: int, limit: int, backendStart: int, scanned: int,
                batches: int, items: seq<Item>, skipped: int)
    requires InStep(list, exclude, start, limit, backendStart, scanned, batches, items, skipped) && scanned < 2000
    ensures var b := BatchSize(limit);
      backendStart + b <= Window(b) && (backendStart + b >= 2000 ==> backendStart + b == Window(b))
  {
    hide Scanning;
    var b := BatchSize(limit);
    if backendStart + b >= 2000 {
      LastWindow(backendStart, batches, b);
    } else {
      WindowReaches(b);
    }
  }

  // ---- when the scan is filter-then-page ------------------------------------------------------

  /** The scan gives the expected page, or that page and one item more. */
  lemma AtMostOneMore(list: seq<Item>, exclude: set<nat>, start: int, limit: int)
    ensures var page := FilterThenPage(list, exclude, start, limit);
      var got := Scanned(list, exclude, start, limit);
      page <= got && |got| <= |page| + 1 && |got| <= EffectiveLimit(limit)
  {
  }

  /** Exactly when one list gets an item too many: the page is not full, the scan did not stop at the 2000th
      item, and the last batch holds another item for the page. */
  lemma OneMoreExactly(list: seq<Item>, exclude: set<nat>, start: int, limit: int)
    ensures var page := Rest(list, ITEM_LIMIT, exclude, start);
      Scanned(list, exclude, start, limit) != FilterThenPage(list, exclude, start, limit) <==>
        && |page| < EffectiveLimit(limit) && !StopsAtLimit(list, exclude, start)
        && |Rest(list, Window(BatchSize(limit)), exclude, start)| > |page|
  {
    hide Window, BatchSize, Kept, Rest, StopsAtLimit, Dropped, Yielded;
    OneMore(Rest(list, ITEM_LIMIT, exclude, start), Rest(list, Window(BatchSize(limit)), exclude, start),
            EffectiveLimit(limit), StopsAtLimit(list, exclude, start));
  }

  lemma OneMore(page: seq<Item>, beyond: seq<Item>, limit: int, stops: bool)
    requires limit > 0
    ensures Yielded(page, beyond, limit, stops) != First(page, Max0(limit))
      <==> |page| < limit && !stops && |beyond| > |page|
  {
  }

  // ---- the expected page, and small limits ----------------------------------------------------

  /** The places of the items that are not excluded, in order. */
  ghost predicate KeepsAt(items: seq<Item>, exclude: set<nat>, kept: seq<Item>, places: seq<nat>) {
    && |places| == |kept|
    && (forall j :: 0 <= j < |places| ==> places[j] < |items| && kept[j] == items[places[j]])
    && (forall i, j :: 0 <= i < j < |places| ==> places[i] < places[j])
    && (forall i :: 0 <= i < |items| ==> (i in places <==> items[i].id == 0 || items[i].id !in exclude))
  }

  /** Filtering keeps, in their order, just the items whose id is missing or not excluded. */
  lemma {:induction false} KeptExactly(items: seq<Item>, exclude: set<nat>)
    ensures exists places :: KeepsAt(items, exclude, Kept(items, exclude), places)
  {
    if |items| == 0 {
      assert Kept(items, exclude) == [];
      assert KeepsAt(items, exclude, Kept(items, exclude), []);
    } else {
      var n := |items| - 1;
      KeptExactly(items[..n], exclude);
      var kept := Kept(items[..n], exclude);
      var places :| KeepsAt(items[..n], exclude, kept, places);
      KeepsNext(items, exclude, kept, places);
      assert kept + [] == kept;
      if Dropped(items[n], exclude) {
        assert KeepsAt(items, exclude, Kept(items, exclude), places);
      } else {
        assert KeepsAt(items, exclude, Kept(items, exclude), places + [n]);
      }
    }
  }

  lemma KeepsNext(items: seq<Item>, exclude: set<nat>, kept: seq<Item>, places: seq<nat>)
    requires |items| > 0 && KeepsAt(items[..|items| - 1], exclude, kept, places)
    ensures var n := |items| - 1;
      if items[n].id == 0 || items[n].id !in exclude then KeepsAt(items, exclude, kept + [items[n]], places + [n])
      else KeepsAt(items, exclude, kept, places)
  {
    var n := |items| - 1;
    assert n !in places;
    var more := places + [n];
    assert forall i: nat :: i in more <==> i in places || i == n;
  }

  /** The page is a stretch of the kept ones of the first 2000 items, from `start` on and of at most `limit`. */
  lemma PageExactly(list: seq<Item>, exclude: set<nat>, start: int, limit: int)
    ensures var kept := Kept(list[..if |list| < 2000 then |list| else 2000], exclude);
      var from := if start < 0 then 0 else if start > |kept| then |kept| else start;
      var to := if limit <= 0 || from + limit > |kept| then |kept| else from + limit;
      FilterThenPage(list, exclude, start, limit) == kept[from..to]
  {
    KeptIsShorter(list[..Min(2000, |list|)], exclude);
  }

  /** A caller that asks for no limit, or for at most 33 items, always gets just its page; above that, whenever
      three times the limit divides 2000. */
  lemma SmallPagesAreExact(list: seq<Item>, exclude: set<nat>, start: int, limit: int)
    requires limit <= 33 || 2000 % (3 * limit) == 0
    ensures Scanned(list, exclude, start, limit) == FilterThenPage(list, exclude, start, limit)
  {
    assert limit > 33 ==> BatchSize(limit) == 3 * limit;
    assert limit <= 33 ==> BatchSize(limit) == 100;
    ExactWhenChecked(list, exclude, start, limit);
  }

  /** What a caller can check beforehand: batches meet the limit exactly, or the page starts past them all. */
  predicate PageIsExact(start: int, limit: int) {
    ITEM_LIMIT % BatchSize(limit) == 0 || start >= Window(BatchSize(limit))
  }

  lemma {:induction false} KeptIsShorter(items: seq<Item>, exclude: set<nat>)
    ensures |Kept(items, exclude)| <= |items|
  {
    if |items| > 0 {
      KeptIsShorter(items[..|items| - 1], exclude);
    }
  }

  lemma WindowMeetsLimit(b: int)
    requires b > 0
    ensures 2000 % b == 0 <==> Window(b) == 2000
  {
    var q, r := 2000 / b, 2000 % b;
    assert 2000 == q * b + r;
    if r == 0 {
      assert q * b <= 2000 + b - 1 < q * b + b;
      QuotientIs(2000 + b - 1, b, q);
    } else {
      assert (q + 1) * b == q * b + b;
      QuotientIs(2000 + b - 1, b, q + 1);
    }
  }

  lemma ExactWhenChecked(list: seq<Item>, exclude: set<nat>, start: int, limit: int)
    requires PageIsExact(start, limit)
    ensures Scanned(list, exclude, start, limit) == FilterThenPage(list, exclude, start, limit)
  {
    var w := Window(BatchSize(limit));
    WindowMeetsLimit(BatchSize(limit));
    WindowReaches(BatchSize(limit));
    if start >= w {
      KeptIsShorter(list[..Min(w, |list|)], exclude);
      KeptIsShorter(list[..Min(2000, |list|)], exclude);
    }
  }

  const KEEP := Item(2, 0)
  const DROP := Item(1, 0)

  /** `kept` items to keep among the first 2000, all before the 2000th when there are fewer, then more. */
  function Witness(kept: nat, more: nat): seq<Item>
    requires kept <= 2000
  {
    seq(kept, _ => KEEP) + seq(2000 - kept, _ => DROP) + seq(more, _ => KEEP)
  }

  lemma {:induction false} KeptOfKept(items: seq<Item>)
    requires forall i :: 0 <= i < |items| ==> items[i] == KEEP
    ensures Kept(items, {1}) == items
  {
    if |items| > 0 {
      KeptOfKept(items[..|items| - 1]);
    }
  }

  lemma {:induction false} KeptOfDropped(items: seq<Item>, n: nat)
    requires n <= |items| && forall i :: n <= i < |items| ==> items[i] == DROP
    ensures Kept(items, {1}) == Kept(items[..n], {1})
    decreases |items|
  {
    if n < |items| {
      var init := items[..|items| - 1];
      KeptOfDropped(init, n);
      assert init[..n] == items[..n];
    } else {
      assert items[..n] == items;
    }
  }

  lemma {:induction false} KeptAfter(items: seq<Item>, n: nat)
    requires n <= |items| && forall i :: n <= i < |items| ==> items[i] == KEEP
    ensures |Kept(items, {1})| == |Kept(items[..n], {1})| + |items| - n
    decreases |items|
  {
    if n < |items| {
      var init := items[..|items| - 1];
      KeptAfter(init, n);
      assert init[..n] == items[..n];
    } else {
      assert items[..n] == items;
    }
  }

  /** With any other start or limit some list gets an item too many. */
  lemma InexactOtherwise(start: int, limit: int)
    requires !PageIsExact(start, limit)
    ensures exists list, exclude :: Scanned(list, exclude, start, limit) != FilterThenPage(list, exclude, start, limit)
  {
    hide *;
    WindowOverruns(start, limit);
    var w := Window(BatchSize(limit));
    WitnessRests(start, w - 2000);
    OneMoreOf(Witness(Min(Max0(start), 2000), w - 2000), start, limit);
  }

  lemma WindowOverruns(start: int, limit: int)
    requires !PageIsExact(start, limit)
    ensures BatchSize(limit) > 0 && Window(BatchSize(limit)) > 2000 && start < Window(BatchSize(limit))
    ensures 0 <= Min(Max0(start), 2000) <= 2000
  {
    WindowReaches(BatchSize(limit));
    WindowMeetsLimit(BatchSize(limit));
    hide Window;
  }

  lemma OneMoreOf(list: seq<Item>, start: int, limit: int)
    requires BatchSize(limit) > 0 && Window(BatchSize(limit)) > 2000
    requires |Rest(list, 2000, {1}, start)| == 0 && |Rest(list, Window(BatchSize(limit)), {1}, start)| > 0
    ensures Scanned(list, {1}, start, limit) != FilterThenPage(list, {1}, start, limit)
  {
    hide Window, Rest, BatchSize;
    OneMoreExactly(list, {1}, start, limit);
  }

  lemma WitnessRests(start: int, more: nat)
    requires start < 2000 + more && more > 0
    ensures var list := Witness(Min(Max0(start), 2000), more);
      |Rest(list, 2000, {1}, start)| == 0 && |Rest(list, 2000 + more, {1}, start)| > 0
  {
    WitnessKeeps(Min(Max0(start), 2000), more);
    hide Kept, Witness;
  }

  lemma WitnessKeeps(kept: nat, more: nat)
    requires kept <= 2000
    ensures var list := Witness(kept, more);
      && |list| == 2000 + more && |Kept(list[..2000], {1})| == kept && |Kept(list, {1})| == kept + more
      && list[..|list|] == list && (kept < 2000 ==> list[1999] == DROP)
  {
    var list := Witness(kept, more);
    assert list[..2000] == seq(kept, _ => KEEP) + seq(2000 - kept, _ => DROP);
    assert list[..2000][..kept] == seq(kept, _ => KEEP);
    KeptOfDropped(list[..2000], kept);
    KeptOfKept(seq(kept, _ => KEEP));
    KeptAfter(list, 2000);
  }

  /** The scan is filter-then-page for every list and every set of excluded ids if and only if the caller's
      start and limit pass the check. */
  lemma ScanIsFilterThenPage(start: int, limit: int)
    ensures (forall list, exclude :: Scanned(list, exclude, start, limit) == FilterThenPage(list, exclude, start, limit))
       <==> PageIsExact(start, limit)
  {
    if PageIsExact(start, limit) {
      forall list, exclude
        ensures Scanned(list, exclude, start, limit) == FilterThenPage(list, exclude, start, limit)
      {
        ExactWhenChecked(list, exclude, start, limit);
      }
    } else {
      InexactOtherwise(start, limit);
    }
  }

  /** A concrete case: forty items asked for, so batches of 120; the first 2000 items are all excluded, and the
      2001st, which the last batch reaches, is returned all the same. */
  lemma ItemBeyondTheLimit()
    ensures var list := Witness(0, 1);
      FilterThenPage(list, {1}, 0, 40) == [] && Scanned(list, {1}, 0, 40) == [KEEP]
  {
    var list := Witness(0, 1);
    hide *;
    KeptExample(list);
    RestsExample(list);
    BatchExample();
    YieldExample(list);
  }

  lemma KeptExample(list: seq<Item>)
    requires list == Witness(0, 1)
    ensures |list| == 2001 && Kept(list[..2000], {1}) == [] && Kept(list, {1}) == [KEEP]
  {
    KeptOfDropped(list[..2000], 0);
    assert list[..2000][..0] == [];
    assert list[..2001] == list && list[2000] == KEEP;
    KeptNext(list, 2000, {1});
  }

  lemma RestsExample(list: seq<Item>)
    requires |list| == 2001 && Kept(list[..2000], {1}) == [] && Kept(list, {1}) == [KEEP]
    ensures Rest(list, 2000, {1}, 0) == [] && Rest(list, 2040, {1}, 0) == [KEEP]
  {
    hide Kept;
    assert list[..2001] == list;
  }

  lemma BatchExample()
    ensures BatchSize(40) == 120 && Window(120) == 2040
  {
  }

  lemma YieldExample(list: seq<Item>)
    requires Rest(list, 2000, {1}, 0) == [] && Rest(list, 2040, {1}, 0) == [KEEP]
    requires BatchSize(40) == 120 && Window(120) == 2040
    ensures FilterThenPage(list, {1}, 0, 40) == [] && Scanned(list, {1}, 0, 40) == [KEEP]
  {
    hide Rest, Window, BatchSize, Kept, Dropped;
  }
}

/**
 Headers as clients write them: spaces wherever they may stand, values quoted or bare, fields repeated, in any
 letter case, and parts that are no fields. What is read from them is said field by field.
 */
module AuthHeaderForms {
  import opened Wrappers
  import opened AuthHeader

  /** White space, character by character. */
  lemma SpacesAre(c: char)
    ensures IsSpace(c) <==>
      c in "\t\n\U{0B}\U{0C}\r \U{85}\U{A0}\U{1680}\U{2000}\U{2001}\U{2002}\U{2003}\U{2004}\U{2005}\U{2006}\U{2007}\U{2008}\U{2009}\U{200A}\U{2028}\U{2029}\U{202F}\U{205F}\U{3000}"
  {
  }

  // ---- names in any letter case ---------------------------------------------------------------

  /** `c` is the lower-case letter `l`, its capital, or one of the two signs that lower to it. */
  predicate Folds(c: char, l: char) {
    c == l || c as int + 32 == l as int || (l == 'k' && c == '\U{212A}') || (l == 'i' && c == '\U{130}')
  }

  function LowerText(n: Name): string {
    match n
    case UserId => "userid"
    case Client => "client"
    case Device => "device"
    case DeviceId => "deviceid"
    case Version => "version"
    case Token => "token"
  }

  lemma LowersTo(s: string, low: string)
    requires forall i :: 0 <= i < |low| ==> 'a' <= low[i] <= 'z'
    ensures Lower(s) == low <==> |s| == |low| && forall i :: 0 <= i < |s| ==> Folds(s[i], low[i])
  {
    if |s| == |low| && forall i :: 0 <= i < |s| ==> Folds(s[i], low[i]) {
      assert forall i :: 0 <= i < |s| ==> Lower(s)[i] == low[i];
    }
    if Lower(s) == low {
      forall i | 0 <= i < |s|
        ensures Folds(s[i], low[i])
      {
        assert Lower(s)[i] == low[i];
      }
    }
  }

  /** A key spells a name exactly if it has its letters, each in either case. */
  lemma SpelledInAnyCase(key: string, n: Name)
    ensures NameOf(key) == Some(n) <==> |key| == |LowerText(n)| && forall i :: 0 <= i < |key| ==> Folds(key[i], LowerText(n)[i])
  {
    LowersTo(key, LowerText(n));
    NameByText(key, n);
    hide Lower, Folds, NameOf;
  }

  lemma NameByText(key: string, n: Name)
    ensures NameOf(key) == Some(n) <==> Lower(key) == LowerText(n)
  {
    hide Lower;
  }

  // ---- one field ------------------------------------------------------------------------------

  predicate AllSpace(s: string) {
    forall i :: 0 <= i < |s| ==> IsSpace(s[i])
  }

  predicate Trimmed(s: string) {
    s != "" ==> !IsSpace(s[0]) && !IsSpace(s[|s| - 1])
  }

  /** A field with spaces before and after its key and before and after its value. */
  datatype Loose = Loose(key: string, value: string, quoted: bool, a: string, b: string, c: string, d: string)

  /** A key without the signs that divide, and a value without quotes; commas and outer spaces need quotes. */
  predicate Fit(x: Loose) {
    && AllSpace(x.a) && AllSpace(x.b) && AllSpace(x.c) && AllSpace(x.d)
    && GoodKey(x.key) && '"' !in x.value && (!x.quoted ==> ',' !in x.value && Trimmed(x.value))
  }

  function Body(x: Loose): string {
    if x.quoted then "\"" + x.value + "\"" else x.value
  }

  function Written(x: Loose): string {
    x.a + x.key + x.b + "=" + (x.c + Body(x) + x.d)
  }

  lemma {:induction false} TrimLeftStops(p: string, q: string)
    ensures TrimLeft(p + "=" + q, IsSpace) == TrimLeft(p, IsSpace) + "=" + q
  {
    if p == "" {
      var s := "=" + q;
      assert s[0] == '=' && TrimLeft(s, IsSpace) == s;
      assert p + "=" + q == s;
      assert TrimLeft(p, IsSpace) == "";
      assert "" + "=" + q == s;
    } else {
      assert (p + "=" + q)[1..] == p[1..] + "=" + q && (p + "=" + q)[0] == p[0];
      TrimLeftStops(p[1..], q);
    }
  }

  lemma {:induction false} TrimRightStops(p: string, q: string)
    ensures TrimRight(p + "=" + q, IsSpace) == p + "=" + TrimRight(q, IsSpace)
    decreases |q|
  {
    var s := p + "=" + q;
    if q == "" {
      assert s == p + "=" && s[|s| - 1] == '=';
      assert p + "=" + "" == p + "=";
    } else {
      assert s[..|s| - 1] == p + "=" + q[..|q| - 1] && s[|s| - 1] == q[|q| - 1];
      TrimRightStops(p, q[..|q| - 1]);
    }
  }

  lemma {:induction false} TrimRightOfSpace(s: string)
    requires AllSpace(s)
    ensures TrimRight(s, IsSpace) == "" && TrimLeft(s, IsSpace) == ""
    decreases |s|
  {
    if s != "" {
      assert AllSpace(s[..|s| - 1]) && AllSpace(s[1..]);
      TrimRightOfSpace(s[..|s| - 1]);
      TrimRightOfSpace(s[1..]);
    }
  }

  /** The side of the key: leading spaces go first, then those behind it. */
  lemma KeySide(a: string, k: string, b: string)
    requires AllSpace(a) && AllSpace(b) && Trimmed(k)
    ensures TrimSpace(TrimLeft(a + k + b, IsSpace)) == k
  {
    if k == "" {
      assert AllSpace(a + k + b);
      TrimRightOfSpace(a + k + b);
    } else {
      assert a + k + b == a + (k + b);
      TrimLeftDrops(a, k + b, IsSpace);
      assert "" + (k + b) == k + b;
      TrimLeftDrops("", k + b, IsSpace);
      TrimRightDrops(k, b, IsSpace);
    }
  }

  /** The side of the value: trailing spaces go first, then those before it. */
  lemma ValueSide(c: string, v: string, d: string)
    requires AllSpace(c) && AllSpace(d) && Trimmed(v)
    ensures TrimSpace(TrimRight(c + v + d, IsSpace)) == v
  {
    if v == "" {
      assert AllSpace(c + v + d);
      TrimRightOfSpace(c + v + d);
    } else {
      TrimRightDrops(c + v, d, IsSpace);
      TrimLeftDrops(c, v, IsSpace);
      assert v + "" == v;
      TrimRightDrops(v, "", IsSpace);
    }
  }

  lemma {:induction false} TrimQuotesKeeps(s: string)
    requires '"' !in s
    ensures Trim(s, IsQuote) == s
  {
    if s != "" {
      assert s[0] in s && s[|s| - 1] in s;
      TrimKeeps(s, IsQuote);
    }
  }

  lemma BodyIsTrimmed(x: Loose)
    requires Fit(x)
    ensures Trimmed(Body(x)) && Trim(Body(x), IsQuote) == x.value
  {
    if x.quoted {
      TrimQuotes(x.value);
    } else {
      TrimQuotesKeeps(x.value);
    }
  }

  lemma {:induction false} NoEquals(s: string)
    requires AllSpace(s)
    ensures '=' !in s && ',' !in s && '"' !in s
  {
  }

  lemma {:induction false} TrimLeftKeepsOut(s: string, c: char)
    requires c !in s
    ensures c !in TrimLeft(s, IsSpace)
  {
    if s != "" {
      TrimLeftKeepsOut(s[1..], c);
    }
  }

  /** Reading a loosely written field gives its key and value. */
  lemma ReadsLoosely(h: Header, x: Loose)
    requires Fit(x)
    ensures Absorb(h, TrimSpace(Written(x))) ==
      var h' := h.(fields := h.fields[x.key := x.value]);
      if NameOf(x.key).Some? then h'.(known := h'.known[NameOf(x.key).value := x.value]) else h'
  {
    var p, q := x.a + x.key + x.b, x.c + Body(x) + x.d;
    TrimLeftStops(p, q);
    var p', q' := TrimLeft(p, IsSpace), TrimRight(q, IsSpace);
    TrimRightStops(p', q);
    assert TrimSpace(Written(x)) == p' + ['='] + q';
    NoEquals(x.a);
    NoEquals(x.b);
    TrimLeftKeepsOut(p, '=');
    FirstIndex(p', q', '=');
    assert (p' + ['='] + q')[..|p'|] == p' && (p' + ['='] + q')[|p'| + 1..] == q';
    BodyIsTrimmed(x);
    KeySide(x.a, x.key, x.b);
    ValueSide(x.c, Body(x), x.d);
    hide TrimSpace, NameOf, TrimLeft, TrimRight, GoodKey, Body, Written;
  }

  lemma {:induction false} NotThere(s: string, c: char)
    requires c !in s
    ensures IndexOf(s, c) == |s|
  {
    if s != "" {
      NotThere(s[1..], c);
    }
  }

  /** A part without an equals sign is no field. */
  lemma JunkIsSkipped(h: Header, part: string)
    requires '=' !in part
    ensures Absorb(h, part) == h
  {
    NotThere(part, '=');
  }

  // ---- a list of fields -----------------------------------------------------------------------

  /** Fields that follow others. */
  function Rest(xs: seq<Loose>): string {
    if |xs| == 0 then "" else "," + (Written(xs[0]) + Rest(xs[1..]))
  }

  function List(xs: seq<Loose>): string {
    if |xs| == 0 then "" else Written(xs[0]) + Rest(xs[1..])
  }

  function Parts(xs: seq<Loose>): seq<string> {
    seq(|xs|, i requires 0 <= i < |xs| => TrimSpace(Written(xs[i])))
  }

  /** Everything before the value is read in one go. */
  lemma SplitReadsHead(x: Loose, rest: string)
    requires Fit(x)
    ensures Split(Written(x) + rest, false, "") == Split(Body(x) + (x.d + rest), false, x.a + x.key + x.b + "=" + x.c)
  {
    var head := x.a + x.key + x.b + "=" + x.c;
    NoEquals(x.a);
    NoEquals(x.b);
    NoEquals(x.c);
    assert '"' !in head && ',' !in head;
    assert Written(x) + rest == head + (Body(x) + (x.d + rest));
    hide *;
    SplitReads(head, Body(x) + (x.d + rest), false, "");
    assert "" + head == head;
  }

  lemma SplitReadsBody(x: Loose, rest: string, current: string)
    requires Fit(x)
    ensures Split(Body(x) + rest, false, current) == Split(rest, false, current + Body(x))
  {
    if x.quoted {
      assert Body(x) + rest == "\"" + (x.value + ("\"" + rest));
      SplitQuote(x.value + ("\"" + rest), false, current);
      SplitReads(x.value, "\"" + rest, true, current + "\"");
      SplitQuote(rest, true, current + "\"" + x.value);
      assert current + "\"" + x.value + "\"" == current + Body(x);
    } else {
      SplitReads(x.value, rest, false, current);
    }
  }

  lemma SplitReadsLoose(x: Loose, rest: string)
    requires Fit(x)
    ensures Split(Written(x) + rest, false, "") == Split(rest, false, Written(x))
  {
    var head := x.a + x.key + x.b + "=" + x.c;
    NoEquals(x.d);
    assert head + Body(x) + x.d == Written(x);
    SplitReadsHead(x, rest);
    hide *;
    SplitReadsBody(x, x.d + rest, head);
    SplitReads(x.d, rest, false, head + Body(x));
  }

  /** A written field is not blank. */
  lemma IsFlushed(x: Loose)
    requires Fit(x)
    ensures Flushed(Written(x)) == [TrimSpace(Written(x))]
  {
    var p, q := x.a + x.key + x.b, x.c + Body(x) + x.d;
    TrimLeftStops(p, q);
    TrimRightStops(TrimLeft(p, IsSpace), q);
  }

  lemma {:induction false} SplitRest(x: Loose, xs: seq<Loose>)
    requires Fit(x) && forall i :: 0 <= i < |xs| ==> Fit(xs[i])
    ensures Split(Rest(xs), false, Written(x)) == [TrimSpace(Written(x))] + Parts(xs)
    decreases |xs|
  {
    IsFlushed(x);
    if |xs| == 0 {
      assert Parts(xs) == [];
    } else {
      assert Parts(xs) == [TrimSpace(Written(xs[0]))] + Parts(xs[1..]);
      hide Written, TrimSpace, Flushed, Fit, Parts;
      SplitComma(Written(xs[0]) + Rest(xs[1..]), Written(x));
      SplitReadsLoose(xs[0], Rest(xs[1..]));
      SplitRest(xs[0], xs[1..]);
    }
  }

  /** Splitting a list gives its fields, without the spaces around them. */
  lemma SplitsLoosely(xs: seq<Loose>)
    requires |xs| > 0 && forall i :: 0 <= i < |xs| ==> Fit(xs[i])
    ensures Split(List(xs), false, "") == Parts(xs)
  {
    SplitReadsLoose(xs[0], Rest(xs[1..]));
    SplitRest(xs[0], xs[1..]);
    assert Parts(xs) == [TrimSpace(Written(xs[0]))] + Parts(xs[1..]);
  }

  // ---- the whole header -----------------------------------------------------------------------

  /** The fields as assigned one after the other: a repeated key has its last value. */
  function Assigned(xs: seq<Loose>): map<string, string> {
    if |xs| == 0 then map[] else Assigned(xs[..|xs| - 1])[xs[|xs| - 1].key := xs[|xs| - 1].value]
  }

  /** The value of the last field that spells the name, in whatever letter case. */
  function Named(xs: seq<Loose>, n: Name): string {
    if |xs| == 0 then ""
    else if NameOf(xs[|xs| - 1].key) == Some(n) then xs[|xs| - 1].value
    else Named(xs[..|xs| - 1], n)
  }

  ghost predicate ReadFrom(h: Header, scheme: string, xs: seq<Loose>) {
    h.scheme == scheme && h.fields == Assigned(xs) && forall n: Name :: Known(h, n) == Named(xs, n)
  }

  lemma AssignedNext(xs: seq<Loose>, x: Loose, n: Name)
    ensures Assigned(xs + [x]) == Assigned(xs)[x.key := x.value]
    ensures Named(xs + [x], n) == if NameOf(x.key) == Some(n) then x.value else Named(xs, n)
  {
    hide NameOf;
    assert (xs + [x])[..|xs|] == xs && (xs + [x])[|xs|] == x;
  }

  lemma ReadNext(h: Header, scheme: string, xs: seq<Loose>, x: Loose)
    requires ReadFrom(h, scheme, xs) && Fit(x)
    ensures ReadFrom(Absorb(h, TrimSpace(Written(x))), scheme, xs + [x])
  {
    ReadsLoosely(h, x);
    hide NameOf, TrimSpace, Written, Absorb, Fit, Assigned, Named;
    AssignedNext(xs, x, UserId);
    var h' := Absorb(h, TrimSpace(Written(x)));
    forall n: Name
      ensures Known(h', n) == Named(xs + [x], n)
    {
      AssignedNext(xs, x, n);
    }
  }

  lemma PartsAt(xs: seq<Loose>, k: nat)
    requires k < |xs|
    ensures |Parts(xs)| == |xs| && Parts(xs)[k] == TrimSpace(Written(xs[k]))
    ensures Parts(xs)[..k + 1] == Parts(xs)[..k] + [TrimSpace(Written(xs[k]))] && xs[..k + 1] == xs[..k] + [xs[k]]
  {
  }

  lemma AbsorbNext(h: Header, parts: seq<string>, part: string)
    ensures AbsorbAll(h, parts + [part]) == Absorb(AbsorbAll(h, parts), part)
  {
    assert (parts + [part])[..|parts|] == parts;
    hide Absorb;
  }

  lemma {:induction false} ReadsAll(scheme: string, xs: seq<Loose>, k: nat)
    requires k <= |xs| && forall i :: 0 <= i < |xs| ==> Fit(xs[i])
    ensures |Parts(xs)| == |xs|
    ensures ReadFrom(AbsorbAll(Header(scheme, map[], map[]), Parts(xs)[..k]), scheme, xs[..k])
  {
    hide *;
    PartsLength(xs);
    if k > 0 {
      ReadsAll(scheme, xs, k - 1);
      assert Fit(xs[k - 1]);
      PartsAt(xs, k - 1);
      var start := Header(scheme, map[], map[]);
      AbsorbNext(start, Parts(xs)[..k - 1], TrimSpace(Written(xs[k - 1])));
      ReadNext(AbsorbAll(start, Parts(xs)[..k - 1]), scheme, xs[..k - 1], xs[k - 1]);
    } else {
      ReadsNone(scheme, Parts(xs)[..0], xs[..0]);
    }
  }

  lemma ReadsNone(scheme: string, parts: seq<string>, xs: seq<Loose>)
    requires |parts| == 0 && |xs| == 0
    ensures ReadFrom(AbsorbAll(Header(scheme, map[], map[]), parts), scheme, xs)
  {
  }

  lemma TakesApart(scheme: string, joined: string)
    requires GoodScheme(scheme) && joined != "" && !IsSpace(joined[|joined| - 1])
    ensures Parse(scheme + " " + joined) == AbsorbAll(Header(scheme, map[], map[]), Split(joined, false, ""))
  {
    var text := scheme + " " + joined;
    assert text[0] == scheme[0] && text[|text| - 1] == joined[|joined| - 1];
    TrimKeeps(text, IsSpace);
    FirstIndex(scheme, joined, ' ');
    assert text == scheme + [' '] + joined;
    assert text[..|scheme|] == scheme && text[|scheme| + 1..] == joined;
  }

  /** Whatever spaces stand around its keys and values, and whether or not its values are quoted, a header is read as
      its scheme, its fields, of a repeated key the last, and its named fields in any letter case. */
  lemma ParsesLoosely(scheme: string, xs: seq<Loose>)
    requires GoodScheme(scheme) && |xs| > 0 && forall i :: 0 <= i < |xs| ==> Fit(xs[i])
    requires List(xs) != "" && !IsSpace(List(xs)[|List(xs)| - 1])
    ensures ReadFrom(Parse(scheme + " " + List(xs)), scheme, xs)
  {
    hide *;
    TakesApart(scheme, List(xs));
    SplitsLoosely(xs);
    ReadsAll(scheme, xs, |xs|);
    PartsLength(xs);
    assert xs[..|xs|] == xs && Parts(xs)[..|xs|] == Parts(xs);
  }

  lemma PartsLength(xs: seq<Loose>)
    ensures |Parts(xs)| == |xs|
  {
  }

  /** Spaces around the whole header do not matter; a blank one is empty, and a lone word is a scheme. */
  lemma ParsesWithin(a: string, text: string, b: string)
    requires AllSpace(a) && AllSpace(b) && Trimmed(text)
    ensures Parse(a + text + b) == Parse(text)
    ensures text == "" ==> Parse(text) == Header("", map[], map[])
    ensures text != "" && ' ' !in text ==> Parse(text) == Header(text, map[], map[])
  {
    if text == "" {
      assert AllSpace(a + text + b);
      TrimRightOfSpace(a + text + b);
    } else {
      assert a + text + b == a + (text + b);
      TrimLeftDrops(a, text + b, IsSpace);
      TrimRightDrops(text, b, IsSpace);
      TrimKeeps(text, IsSpace);
      if ' ' !in text {
        NotThere(text, ' ');
      }
    }
    hide AbsorbAll, Split, IsSpace;
  }

  // ---- a printed header -----------------------------------------------------------------------

  /** What is printed, sign by sign, for a header with two fields. */
  lemma PrintedForm(text: string)
    requires Prints(Header("", map[], map["a" := "1", "b" := "2"]), text)
    ensures text == "Emby a=\"1\", b=\"2\""
  {
    var m := map["a" := "1", "b" := "2"];
    PrintsExample(Header("", map[], m), m);
    hide *;
    PrintIsUnique(Header("", map[], m), text, "Emby a=\"1\", b=\"2\"");
  }

  lemma PrintsExample(h: Header, m: map<string, string>)
    requires m == map["a" := "1", "b" := "2"] && h == Header("", map[], m)
    ensures Prints(h, "Emby a=\"1\", b=\"2\"")
  {
    KeysExample(m);
    JoinExample(m);
    MergedIsFields(h, |NAMES|);
    PrintsIs(h, ["a", "b"], m);
    hide Merged, MergedTo, Lists, Join, Prints;
    assert Scheme(h) + " " == "Emby ";
    assert "Emby " + "a=\"1\", b=\"2\"" == "Emby a=\"1\", b=\"2\"";
  }

  lemma PrintsIs(h: Header, keys: seq<string>, m: map<string, string>)
    requires MergedTo(h, |NAMES|) == m && Lists(keys, m.Keys)
    ensures Prints(h, Scheme(h) + " " + Join(keys, m))
  {
    hide MergedTo, Join;
    assert Merged(h) == m;
  }

  lemma KeysExample(m: map<string, string>)
    requires m == map["a" := "1", "b" := "2"]
    ensures Lists(["a", "b"], m.Keys)
  {
    var keys := ["a", "b"];
    assert Below(keys[0], keys[1]);
    hide Below;
  }

  lemma OneDigit(m: map<string, string>, k: string, v: string)
    requires k in m && m[k] == v && |v| == 1 && v[0] != '"'
    ensures FieldOf(m, k) == k + "=\"" + v + "\""
  {
    UnquoteIsQuoteFree(v);
    hide Unquote;
  }

  lemma JoinExample(m: map<string, string>)
    requires m == map["a" := "1", "b" := "2"]
    ensures Join(["a", "b"], m) == "a=\"1\", b=\"2\""
  {
    OneDigit(m, "a", "1");
    OneDigit(m, "b", "2");
    hide FieldOf;
    var keys := ["a", "b"];
    assert keys[1..] == ["b"] && ["b"][1..] == [];
    assert Tail([], m) == "";
    assert Tail(["b"], m) == ", b=\"2\"";
  }

  /** Printing a value drops its quotes and nothing else. */
  lemma {:induction false} UnquoteDropsQuotes(a: string, b: string)
    ensures Unquote(a + "\"" + b) == Unquote(a) + Unquote(b)
  {
    if a == "" {
      assert a + "\"" + b == "\"" + b && ("\"" + b)[1..] == b;
    } else {
      assert (a + "\"" + b)[1..] == a[1..] + "\"" + b && (a + "\"" + b)[0] == a[0];
      UnquoteDropsQuotes(a[1..], b);
    }
  }
}

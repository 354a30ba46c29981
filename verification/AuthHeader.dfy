/**
 The Emby authorization header of `internal/gateway/auth_header.go`: a scheme and a list of `key="value"`
 fields. Printing and parsing are the program's loops, each proved against a function on strings.
 */
module AuthHeader {
  import opened Wrappers

  /** The fields that have a place of their own in the header. */
  datatype Name = UserId | Client | Device | DeviceId | Version | Token

  /** A name without an entry in `known` is empty. */
  datatype Header = Header(scheme: string, known: map<Name, string>, fields: map<string, string>)

  const NAMES: seq<Name> := [UserId, Client, Device, DeviceId, Version, Token]

  function Text(n: Name): string {
    match n
    case UserId => "UserId"
    case Client => "Client"
    case Device => "Device"
    case DeviceId => "DeviceId"
    case Version => "Version"
    case Token => "Token"
  }

  function Known(h: Header, n: Name): string {
    if n in h.known then h.known[n] else ""
  }

  // ---- characters and trimming ----------------------------------------------------------------

  /** White space as Go's `unicode.IsSpace` has it. */
  predicate IsSpace(c: char) {
    || c == ' ' || '\t' <= c <= '\r' || c == '\U{85}' || c == '\U{A0}' || c == '\U{1680}'
    || '\U{2000}' <= c <= '\U{200A}' || c == '\U{2028}' || c == '\U{2029}' || c == '\U{202F}'
    || c == '\U{205F}' || c == '\U{3000}'
  }

  /** Lower case, as far as it can give an ASCII letter: besides A to Z, the Kelvin sign and the dotted I. */
  function LowerChar(c: char): char {
    if 'A' <= c <= 'Z' then ((c as int) + 32) as char
    else if c == '\U{212A}' then 'k'
    else if c == '\U{130}' then 'i'
    else c
  }

  function Lower(s: string): string {
    seq(|s|, i requires 0 <= i < |s| => LowerChar(s[i]))
  }

  function NameOf(key: string): Option<Name> {
    var k := Lower(key);
    if k == "userid" then Some(UserId)
    else if k == "client" then Some(Client)
    else if k == "device" then Some(Device)
    else if k == "deviceid" then Some(DeviceId)
    else if k == "version" then Some(Version)
    else if k == "token" then Some(Token)
    else None
  }

  function TrimLeft(s: string, drop: char -> bool): string {
    if s != "" && drop(s[0]) then TrimLeft(s[1..], drop) else s
  }

  function TrimRight(s: string, drop: char -> bool): string {
    if s != "" && drop(s[|s| - 1]) then TrimRight(s[..|s| - 1], drop) else s
  }

  function Trim(s: string, drop: char -> bool): string {
    TrimRight(TrimLeft(s, drop), drop)
  }

  function TrimSpace(s: string): string {
    Trim(s, IsSpace)
  }

  predicate IsQuote(c: char) {
    c == '"'
  }

  /** The index of the first `c`, or the length if there is none. */
  function IndexOf(s: string, c: char): (i: nat)
    ensures i <= |s| && (i < |s| ==> s[i] == c) && c !in s[..i]
  {
    if s == "" || s[0] == c then 0 else 1 + IndexOf(s[1..], c)
  }

  function Unquote(s: string): string {
    if s == "" then "" else (if s[0] == '"' then "" else [s[0]]) + Unquote(s[1..])
  }

  lemma {:induction false} UnquoteIsQuoteFree(s: string)
    ensures '"' !in Unquote(s)
    ensures '"' !in s ==> Unquote(s) == s
  {
    if s != "" {
      UnquoteIsQuoteFree(s[1..]);
    }
  }

  lemma TrimKeeps(s: string, drop: char -> bool)
    requires s != "" && !drop(s[0]) && !drop(s[|s| - 1])
    ensures Trim(s, drop) == s
  {
  }

  lemma {:induction false} TrimRightDrops(s: string, t: string, drop: char -> bool)
    requires s != "" && !drop(s[|s| - 1]) && forall i :: 0 <= i < |t| ==> drop(t[i])
    ensures TrimRight(s + t, drop) == s
    decreases |t|
  {
    if t == "" {
      assert s + t == s;
    } else {
      assert (s + t)[..|s + t| - 1] == s + t[..|t| - 1];
      TrimRightDrops(s, t[..|t| - 1], drop);
    }
  }

  lemma {:induction false} TrimLeftDrops(t: string, s: string, drop: char -> bool)
    requires s != "" ==> !drop(s[0])
    requires forall i :: 0 <= i < |t| ==> drop(t[i])
    ensures TrimLeft(t + s, drop) == s
  {
    if t == "" {
      assert t + s == s;
    } else {
      assert (t + s)[1..] == t[1..] + s;
      TrimLeftDrops(t[1..], s, drop);
    }
  }

  // ---- splitting the fields -------------------------------------------------------------------

  function Flushed(current: string): seq<string> {
    if TrimSpace(current) == "" then [] else [TrimSpace(current)]
  }

  /** The fields of `s`, with `current` read so far and inside a quote or not. Commas in quotes do not split. */
  function Split(s: string, inQuote: bool, current: string): seq<string>
    decreases |s|
  {
    if s == "" then Flushed(current)
    else if s[0] == '"' then Split(s[1..], !inQuote, current + [s[0]])
    else if s[0] == ',' && !inQuote then Flushed(current) + Split(s[1..], inQuote, "")
    else Split(s[1..], inQuote, current + [s[0]])
  }

  method SplitHeaderFields(s: string) returns (fields: seq<string>)
    ensures fields == Split(s, false, "")
  {
    fields := [];
    var current := "";
    var inQuote := false;
    for i := 0 to |s|
      invariant fields + Split(s[i..], inQuote, current) == Split(s, false, "")
    {
      var c := s[i];
      assert s[i..][0] == c && s[i..][1..] == s[i + 1..];
      match c {
        case '"' =>
          inQuote := !inQuote;
          current := current + [c];
        case ',' =>
          if inQuote {
            current := current + [c];
            continue;
          }
          var part := TrimSpace(current);
          if part != "" {
            fields := fields + [part];
          }
          current := "";
        case _ =>
          current := current + [c];
      }
    }
    var part := TrimSpace(current);
    if part != "" {
      fields := fields + [part];
    }
  }

  // ---- parsing --------------------------------------------------------------------------------

  /** One field into the header; one without `=` is skipped. */
  function Absorb(h: Header, part: string): Header {
    var i := IndexOf(part, '=');
    if i == |part| then h
    else
      var key := TrimSpace(part[..i]);
      var val := Trim(TrimSpace(part[i + 1..]), IsQuote);
      var h' := h.(fields := h.fields[key := val]);
      if NameOf(key).Some? then h'.(known := h'.known[NameOf(key).value := val]) else h'
  }

  function AbsorbAll(h: Header, parts: seq<string>): Header {
    if |parts| == 0 then h else Absorb(AbsorbAll(h, parts[..|parts| - 1]), parts[|parts| - 1])
  }

  function Parse(text: string): Header {
    var value := TrimSpace(text);
    var i := IndexOf(value, ' ');
    if value == "" then Header("", map[], map[])
    else if i == |value| then Header(value, map[], map[])
    else AbsorbAll(Header(value[..i], map[], map[]), Split(value[i + 1..], false, ""))
  }

  method ParseEmbyAuthHeader(text: string) returns (h: Header)
    ensures h == Parse(text)
  {
    var value := TrimSpace(text);
    if value == "" {
      return Header("", map[], map[]);
    }
    var i := IndexOf(value, ' ');
    h := Header(value[..i], map[], map[]);
    if i == |value| {
      assert value[..i] == value;
      return;
    }
    ghost var start := h;
    var parts := SplitHeaderFields(value[i + 1..]);
    for k := 0 to |parts|
      invariant h == AbsorbAll(start, parts[..k])
    {
      assert parts[..k + 1][..k] == parts[..k];
      var part := parts[k];
      var at := IndexOf(part, '=');
      if at == |part| {
        continue;
      }
      var key := TrimSpace(part[..at]);
      var val := Trim(TrimSpace(part[at + 1..]), IsQuote);
      h := h.(fields := h.fields[key := val]);
      if NameOf(key).Some? {
        h := h.(known := h.known[NameOf(key).value := val]);
      }
    }
    assert parts[..|parts|] == parts;
  }

  // ---- printing -------------------------------------------------------------------------------

  /** Go's order of strings. */
  predicate Below(a: string, b: string) {
    if a == "" then true
    else if b == "" then false
    else a[0] < b[0] || (a[0] == b[0] && Below(a[1..], b[1..]))
  }

  ghost predicate Sorted(keys: seq<string>) {
    forall i, j :: 0 <= i < j < |keys| ==> keys[i] != keys[j] && Below(keys[i], keys[j])
  }

  ghost predicate Lists(keys: seq<string>, s: set<string>) {
    Sorted(keys) && forall k :: k in keys <==> k in s
  }

  /** The fields to print: the listed ones, and the named ones that are not empty in their usual spelling. */
  function MergedTo(h: Header, n: nat): map<string, string>
    requires n <= |NAMES|
  {
    if n == 0 then h.fields
    else
      var m := MergedTo(h, n - 1);
      if Known(h, NAMES[n - 1]) != "" then m[Text(NAMES[n - 1]) := Known(h, NAMES[n - 1])] else m
  }

  function Merged(h: Header): map<string, string> {
    MergedTo(h, |NAMES|)
  }

  function Field(key: string, val: string): string {
    key + "=\"" + val + "\""
  }

  function FieldOf(m: map<string, string>, key: string): string
    requires key in m
  {
    Field(key, Unquote(m[key]))
  }

  /** Fields that follow others. */
  function Tail(keys: seq<string>, m: map<string, string>): string
    requires forall k :: k in keys ==> k in m
  {
    if |keys| == 0 then "" else ", " + FieldOf(m, keys[0]) + Tail(keys[1..], m)
  }

  function Join(keys: seq<string>, m: map<string, string>): string
    requires forall k :: k in keys ==> k in m
  {
    if |keys| == 0 then "" else FieldOf(m, keys[0]) + Tail(keys[1..], m)
  }

  lemma {:induction false} TailAppends(keys: seq<string>, k: string, m: map<string, string>)
    requires k in m && forall x :: x in keys ==> x in m
    ensures Tail(keys + [k], m) == Tail(keys, m) + ", " + FieldOf(m, k)
  {
    if |keys| == 0 {
      assert keys + [k] == [k] && [k][1..] == [];
    } else {
      assert (keys + [k])[1..] == keys[1..] + [k];
      TailAppends(keys[1..], k, m);
    }
  }

  lemma JoinAppends(keys: seq<string>, k: string, m: map<string, string>)
    requires k in m && forall x :: x in keys ==> x in m
    ensures Join(keys + [k], m) == (if |keys| == 0 then "" else Join(keys, m) + ", ") + FieldOf(m, k)
  {
    if |keys| == 0 {
      assert keys + [k] == [k] && [k][1..] == [];
    } else {
      assert (keys + [k])[1..] == keys[1..] + [k];
      TailAppends(keys[1..], k, m);
    }
  }

  function Scheme(h: Header): string {
    if h.scheme == "" then "Emby" else h.scheme
  }

  function Insert(keys: seq<string>, k: string): seq<string> {
    if |keys| == 0 || Below(k, keys[0]) then [k] + keys else [keys[0]] + Insert(keys[1..], k)
  }

  lemma {:induction false} BelowOrders(a: string, b: string, c: string)
    ensures Below(a, b) || Below(b, a)
    ensures Below(a, b) && Below(b, a) ==> a == b
    ensures Below(a, b) && Below(b, c) ==> Below(a, c)
  {
    if a != "" && b != "" {
      BelowOrders(a[1..], b[1..], if c == "" then "" else c[1..]);
      if a[0] == b[0] && a[1..] == b[1..] {
        assert a == [a[0]] + a[1..] && b == [b[0]] + b[1..];
      }
    }
  }

  lemma {:induction false} InsertSorts(keys: seq<string>, k: string)
    requires Sorted(keys) && k !in keys
    ensures Sorted(Insert(keys, k)) && forall x :: x in Insert(keys, k) <==> x in keys || x == k
  {
    if |keys| > 0 {
      BelowOrders(k, keys[0], "");
      if Below(k, keys[0]) {
        forall j | 0 <= j < |keys|
          ensures Below(k, keys[j])
        {
          BelowOrders(k, keys[0], keys[j]);
        }
      } else {
        InsertSorts(keys[1..], k);
        assert forall x :: x in keys <==> x == keys[0] || x in keys[1..];
        var rest := Insert(keys[1..], k);
        forall j | 0 <= j < |rest|
          ensures keys[0] != rest[j] && Below(keys[0], rest[j])
        {
          assert rest[j] in rest;
          assert rest[j] == k || rest[j] in keys[1..];
        }
      }
    }
  }

  method SortKeys(s: set<string>) returns (keys: seq<string>)
    ensures Lists(keys, s)
  {
    keys := [];
    var rest := s;
    while rest != {}
      invariant rest <= s && Lists(keys, s - rest)
    {
      var k :| k in rest;
      InsertSorts(keys, k);
      keys := Insert(keys, k);
      rest := rest - {k};
    }
    assert s - rest == s;
  }

  /** A set has one sorted listing. */
  lemma {:induction false} ListingIsUnique(a: seq<string>, b: seq<string>, s: set<string>)
    requires Lists(a, s) && Lists(b, s)
    ensures a == b
    decreases |a|
  {
    assert |b| > 0 ==> b[0] in b;
    if |a| > 0 {
      assert a[0] in a && a[0] in b;
      assert b[0] in b && b[0] in a;
      var i :| 0 <= i < |b| && b[i] == a[0];
      var j :| 0 <= j < |a| && a[j] == b[0];
      BelowOrders(a[0], b[0], "");
      assert a[0] == b[0];
      TailLists(a, s);
      TailLists(b, s);
      ListingIsUnique(a[1..], b[1..], s - {a[0]});
    }
  }

  lemma TailLists(a: seq<string>, s: set<string>)
    requires Lists(a, s) && |a| > 0
    ensures Lists(a[1..], s - {a[0]})
  {
    assert a == [a[0]] + a[1..];
  }

  /** `text` is the header's printed form. */
  ghost predicate Prints(h: Header, text: string) {
    exists keys :: Lists(keys, Merged(h).Keys) && text == Scheme(h) + " " + Join(keys, Merged(h))
  }

  lemma PrintIsUnique(h: Header, a: string, b: string)
    requires Prints(h, a) && Prints(h, b)
    ensures a == b
  {
    var ka :| Lists(ka, Merged(h).Keys) && a == Scheme(h) + " " + Join(ka, Merged(h));
    var kb :| Lists(kb, Merged(h).Keys) && b == Scheme(h) + " " + Join(kb, Merged(h));
    ListingIsUnique(ka, kb, Merged(h).Keys);
  }

  method String(h: Header) returns (text: string)
    ensures Prints(h, text)
  {
    var scheme := h.scheme;
    if scheme == "" {
      scheme := "Emby";
    }
    var fields := h.fields;
    for n := 0 to |NAMES|
      invariant fields == MergedTo(h, n)
    {
      if Known(h, NAMES[n]) != "" {
        fields := fields[Text(NAMES[n]) := Known(h, NAMES[n])];
      }
    }
    var keys := SortKeys(fields.Keys);
    var joined := "";
    for i := 0 to |keys|
      invariant forall k :: k in keys[..i] ==> k in fields
      invariant joined == Join(keys[..i], fields)
    {
      assert keys[i] in keys;
      assert keys[..i + 1] == keys[..i] + [keys[i]];
      JoinAppends(keys[..i], keys[i], fields);
      if i > 0 {
        joined := joined + ", ";
      }
      joined := joined + Field(keys[i], Unquote(fields[keys[i]]));
    }
    assert keys[..|keys|] == keys && fields == Merged(h);
    text := scheme + " " + joined;
    assert Lists(keys, Merged(h).Keys) && text == Scheme(h) + " " + Join(keys, Merged(h));
  }

  // ---- the round trip -------------------------------------------------------------------------

  predicate GoodKey(k: string) {
    && '=' !in k && ',' !in k && '"' !in k
    && (k != "" ==> !IsSpace(k[0]) && !IsSpace(k[|k| - 1]))
  }

  predicate GoodScheme(s: string) {
    s != "" && ' ' !in s && !IsSpace(s[0]) && !IsSpace(s[|s| - 1])
  }

  /** A header whose scheme and keys a reader can tell apart. */
  predicate Readable(h: Header) {
    GoodScheme(Scheme(h)) && forall k :: k in Merged(h) ==> GoodKey(k)
  }

  /** Of the keys of `m` that spell the name in some letter case, the last one in print. */
  ghost predicate LastSpelling(m: map<string, string>, n: Name, k: string) {
    k in m && NameOf(k) == Some(n) && forall x :: x in m && NameOf(x) == Some(n) ==> Below(x, k)
  }

  /** Characters that do not split are read in one go. */
  lemma {:induction false} SplitReads(a: string, rest: string, inQuote: bool, current: string)
    requires '"' !in a && (inQuote || ',' !in a)
    ensures Split(a + rest, inQuote, current) == Split(rest, inQuote, current + a)
    decreases |a|
  {
    if a == "" {
      assert a + rest == rest && current + a == current;
    } else {
      assert (a + rest)[1..] == a[1..] + rest && (a + rest)[0] == a[0];
      assert a == [a[0]] + a[1..];
      SplitReads(a[1..], rest, inQuote, current + [a[0]]);
      assert current + [a[0]] + a[1..] == current + a;
    }
  }

  /** A printed field is read in one go, commas in its value included. */
  lemma SplitReadsField(k: string, v: string, rest: string, current: string)
    requires GoodKey(k) && '"' !in v
    ensures Split(Field(k, v) + rest, false, current) == Split(rest, false, current + Field(k, v))
  {
    var head := k + "=";
    assert Field(k, v) + rest == head + ("\"" + (v + ("\"" + rest)));
    SplitReads(head, "\"" + (v + ("\"" + rest)), false, current);
    SplitQuote(v + ("\"" + rest), false, current + head);
    SplitReads(v, "\"" + rest, true, current + head + "\"");
    SplitQuote(rest, true, current + head + "\"" + v);
    assert current + head + "\"" + v + "\"" == current + Field(k, v);
  }

  lemma SplitQuote(s: string, inQuote: bool, current: string)
    ensures Split("\"" + s, inQuote, current) == Split(s, !inQuote, current + "\"")
  {
    assert ("\"" + s)[0] == '"' && ("\"" + s)[1..] == s;
  }

  lemma FieldIsTrimmed(k: string, v: string)
    requires GoodKey(k)
    ensures TrimSpace(Field(k, v)) == Field(k, v) && TrimSpace(" " + Field(k, v)) == Field(k, v)
  {
    var f := Field(k, v);
    assert f[0] == (if k == "" then '=' else k[0]) && f[|f| - 1] == '"';
    TrimKeeps(f, IsSpace);
    TrimLeftDrops(" ", f, IsSpace);
  }

  function Fields(keys: seq<string>, m: map<string, string>): seq<string>
    requires forall k :: k in keys ==> k in m
  {
    if |keys| == 0 then [] else [FieldOf(m, keys[0])] + Fields(keys[1..], m)
  }

  /** Splitting the rest of a printed list, with the field before it read. */
  lemma {:induction false} SplitTail(keys: seq<string>, m: map<string, string>, current: string)
    requires forall k :: k in keys ==> k in m && GoodKey(k)
    ensures Split(Tail(keys, m), false, current) == Flushed(current) + Fields(keys, m)
    decreases |keys|
  {
    if |keys| == 0 {
      assert Flushed(current) + [] == Flushed(current);
    } else {
      var f, rest := FieldOf(m, keys[0]), Tail(keys[1..], m);
      UnquoteIsQuoteFree(m[keys[0]]);
      FieldIsTrimmed(keys[0], Unquote(m[keys[0]]));
      SplitNext(keys[0], Unquote(m[keys[0]]), rest, current);
      SplitTail(keys[1..], m, " " + f);
      assert Flushed(" " + f) == [f];
    }
  }

  lemma SplitNext(k: string, v: string, rest: string, current: string)
    requires GoodKey(k) && '"' !in v
    ensures Split(", " + Field(k, v) + rest, false, current) == Flushed(current) + Split(rest, false, " " + Field(k, v))
  {
    hide *;
    var f := Field(k, v);
    assert ", " + f + rest == "," + (" " + (f + rest));
    SplitComma(" " + (f + rest), current);
    SplitReads(" ", f + rest, false, "");
    assert "" + " " == " ";
    SplitReadsField(k, v, rest, " ");
  }

  lemma SplitComma(s: string, current: string)
    ensures Split("," + s, false, current) == Flushed(current) + Split(s, false, "")
  {
    assert ("," + s)[0] == ',' && ("," + s)[1..] == s;
  }

  /** Splitting a printed list gives its fields back. */
  lemma SplitOfJoin(keys: seq<string>, m: map<string, string>)
    requires |keys| > 0 && forall k :: k in keys ==> k in m && GoodKey(k)
    ensures Split(Join(keys, m), false, "") == Fields(keys, m)
  {
    var k := keys[0];
    UnquoteIsQuoteFree(m[k]);
    FieldIsTrimmed(k, Unquote(m[k]));
    SplitReadsField(k, Unquote(m[k]), Tail(keys[1..], m), "");
    assert "" + FieldOf(m, k) == FieldOf(m, k);
    SplitTail(keys[1..], m, FieldOf(m, k));
  }

  /** Reading one printed field gives its key and value. */
  lemma AbsorbField(h: Header, k: string, v: string)
    requires GoodKey(k) && '"' !in v
    ensures Absorb(h, Field(k, v)) ==
      var h' := h.(fields := h.fields[k := v]);
      if NameOf(k).Some? then h'.(known := h'.known[NameOf(k).value := v]) else h'
  {
    var f := Field(k, v);
    FirstIndex(k, "\"" + v + "\"", '=');
    assert f == k + "=" + ("\"" + v + "\"");
    assert f[..|k|] == k && f[|k| + 1..] == "\"" + v + "\"";
    if k != "" {
      TrimKeeps(k, IsSpace);
    }
    var q := "\"" + v + "\"";
    TrimKeeps(q, IsSpace);
    TrimQuotes(v);
  }

  lemma {:induction false} FirstIndex(a: string, b: string, c: char)
    requires c !in a
    ensures IndexOf(a + [c] + b, c) == |a|
  {
    if a == "" {
      assert a + [c] + b == [c] + b;
    } else {
      assert (a + [c] + b)[1..] == a[1..] + [c] + b;
      FirstIndex(a[1..], b, c);
    }
  }

  lemma TrimQuotes(v: string)
    requires '"' !in v
    ensures Trim("\"" + v + "\"", IsQuote) == v
  {
    if v == "" {
      assert "\"" + v + "\"" == "\"\"";
      TrimLeftDrops("\"\"", "", IsQuote);
      assert "\"\"" + "" == "\"\"";
    } else {
      assert "\"" + v + "\"" == "\"" + (v + "\"");
      TrimLeftDrops("\"", v + "\"", IsQuote);
      TrimRightDrops(v, "\"", IsQuote);
    }
  }

  /** The last of the keys that spells the name. */
  function LastOf(keys: seq<string>, n: Name): (last: Option<string>)
    ensures last.Some? ==> last.value in keys && NameOf(last.value) == Some(n)
    ensures last.None? ==> forall k :: k in keys ==> NameOf(k) != Some(n)
  {
    if |keys| == 0 then None
    else if NameOf(keys[|keys| - 1]) == Some(n) then Some(keys[|keys| - 1])
    else LastOf(keys[..|keys| - 1], n)
  }

  /** In a sorted listing the last one is the greatest. */
  lemma {:induction false} LastIsGreatest(keys: seq<string>, n: Name, x: string)
    requires Sorted(keys) && x in keys && NameOf(x) == Some(n)
    ensures LastOf(keys, n).Some? && Below(x, LastOf(keys, n).value)
  {
    var last := |keys| - 1;
    if x == keys[last] {
      BelowOrders(x, x, x);
    } else {
      var i :| 0 <= i < |keys| && keys[i] == x;
      assert keys[..last][i] == x;
      if NameOf(keys[last]) != Some(n) {
        LastIsGreatest(keys[..last], n, x);
      }
    }
  }

  /** The header after the fields of `keys` have been read into an empty one. */
  ghost predicate Holds(h: Header, keys: seq<string>, m: map<string, string>) {
    && (forall k :: k in h.fields <==> k in keys)
    && (forall k :: k in keys ==> k in m && h.fields[k] == Unquote(m[k]))
    && (forall n: Name :: n in h.known <==> LastOf(keys, n).Some?)
    && (forall n: Name :: n in h.known ==> h.known[n] == h.fields[LastOf(keys, n).value])
  }

  lemma NameOfText(n: Name)
    ensures NameOf(Text(n)) == Some(n)
  {
    match n
    case UserId => assert Lower("UserId") == "userid";
    case Client => assert Lower("Client") == "client";
    case Device => assert Lower("Device") == "device";
    case DeviceId => assert Lower("DeviceId") == "deviceid";
    case Version => assert Lower("Version") == "version";
    case Token => assert Lower("Token") == "token";
  }

  lemma AbsorbHolds(h: Header, keys: seq<string>, m: map<string, string>, k: string)
    requires Holds(h, keys, m) && k in m && k !in keys && GoodKey(k)
    ensures Holds(Absorb(h, FieldOf(m, k)), keys + [k], m)
  {
    hide *;
    UnquoteIsQuoteFree(m[k]);
    AbsorbField(h, k, Unquote(m[k]));
    HoldsNext(h, keys, m, k, Absorb(h, FieldOf(m, k)), NameOf(k)) by {
      assert FieldOf(m, k) == Field(k, Unquote(m[k])) by { IsFieldOf(m, k); }
    }
  }

  lemma IsFieldOf(m: map<string, string>, k: string)
    requires k in m
    ensures FieldOf(m, k) == Field(k, Unquote(m[k]))
  {
  }

  lemma HoldsNext(h: Header, keys: seq<string>, m: map<string, string>, k: string, h': Header, named: Option<Name>)
    requires Holds(h, keys, m) && k in m && k !in keys && named == NameOf(k)
    requires h'.fields == h.fields[k := Unquote(m[k])]
    requires h'.known == if named.Some? then h.known[named.value := Unquote(m[k])] else h.known
    ensures Holds(h', keys + [k], m)
  {
    hide NameOf, Unquote, LastOf;
    var keys' := keys + [k];
    assert forall x :: x in keys' <==> x in keys || x == k;
    forall n: Name
      ensures n in h'.known <==> LastOf(keys', n).Some?
      ensures n in h'.known ==> h'.known[n] == h'.fields[LastOf(keys', n).value]
    {
      LastAppended(keys, k, n);
    }
  }

  lemma LastAppended(keys: seq<string>, k: string, n: Name)
    ensures LastOf(keys + [k], n) == if NameOf(k) == Some(n) then Some(k) else LastOf(keys, n)
  {
    hide NameOf;
    assert (keys + [k])[..|keys|] == keys;
  }

  lemma {:induction false} FieldsAt(keys: seq<string>, m: map<string, string>, i: nat)
    requires i < |keys| && forall k :: k in keys ==> k in m
    ensures |Fields(keys, m)| == |keys| && Fields(keys, m)[i] == FieldOf(m, keys[i])
  {
    FieldsLength(keys, m);
    if i > 0 {
      FieldsAt(keys[1..], m, i - 1);
    }
  }

  lemma {:induction false} FieldsLength(keys: seq<string>, m: map<string, string>)
    requires forall k :: k in keys ==> k in m
    ensures |Fields(keys, m)| == |keys|
  {
    if |keys| > 0 {
      FieldsLength(keys[1..], m);
    }
  }

  lemma SortedTail(keys: seq<string>, i: nat)
    requires Sorted(keys) && i < |keys|
    ensures keys[..i + 1] == keys[..i] + [keys[i]] && keys[i] !in keys[..i] && keys[i] in keys
  {
  }

  lemma AbsorbKeepsScheme(h: Header, part: string)
    ensures Absorb(h, part).scheme == h.scheme
  {
  }

  lemma {:induction false} AbsorbAllHolds(scheme: string, keys: seq<string>, m: map<string, string>, i: nat)
    requires Sorted(keys) && i <= |keys| && forall k :: k in keys ==> k in m && GoodKey(k)
    ensures |Fields(keys, m)| == |keys|
    ensures var h := AbsorbAll(Header(scheme, map[], map[]), Fields(keys, m)[..i]);
      Holds(h, keys[..i], m) && h.scheme == scheme
  {
    FieldsLength(keys, m);
    if i > 0 {
      AbsorbAllHolds(scheme, keys, m, i - 1);
      FieldsAt(keys, m, i - 1);
      SortedTail(keys, i - 1);
      var fields := Fields(keys, m);
      assert fields[..i][..i - 1] == fields[..i - 1];
      hide Sorted, GoodKey, Fields, Absorb, Holds;
      AbsorbHolds(AbsorbAll(Header(scheme, map[], map[]), fields[..i - 1]), keys[..i - 1], m, keys[i - 1]);
      AbsorbKeepsScheme(AbsorbAll(Header(scheme, map[], map[]), fields[..i - 1]), fields[i - 1]);
    }
  }

  predicate EndsInQuote(s: string) {
    s != "" && s[|s| - 1] == '"'
  }

  /** The last character of a printed list is a quote. */
  lemma {:induction false} TailEnds(f: string, keys: seq<string>, m: map<string, string>)
    requires EndsInQuote(f) && forall k :: k in keys ==> k in m
    ensures EndsInQuote(f + Tail(keys, m))
    decreases |keys|
  {
    if |keys| == 0 {
      assert f + "" == f;
    } else {
      var rest := Tail(keys[1..], m);
      assert EndsInQuote(f + ", " + FieldOf(m, keys[0]));
      TailEnds(f + ", " + FieldOf(m, keys[0]), keys[1..], m);
      Regroup(f, FieldOf(m, keys[0]), rest);
    }
  }

  lemma Regroup(f: string, g: string, rest: string)
    ensures f + (", " + g + rest) == f + ", " + g + rest
  {
  }

  lemma JoinEnds(keys: seq<string>, m: map<string, string>)
    requires |keys| > 0 && forall k :: k in keys ==> k in m
    ensures EndsInQuote(Join(keys, m))
  {
    TailEnds(FieldOf(m, keys[0]), keys[1..], m);
  }

  /** What the parser takes for the scheme and for the list of fields. */
  lemma ParseTakesApart(scheme: string, joined: string)
    requires GoodScheme(scheme) && EndsInQuote(joined)
    ensures Parse(scheme + " " + joined) == AbsorbAll(Header(scheme, map[], map[]), Split(joined, false, ""))
  {
    var text := scheme + " " + joined;
    assert text[0] == scheme[0] && text[|text| - 1] == joined[|joined| - 1];
    TrimKeeps(text, IsSpace);
    FirstIndex(scheme, joined, ' ');
    assert text == scheme + [' '] + joined;
    assert text[..|scheme|] == scheme && text[|scheme| + 1..] == joined;
  }

  lemma ParseSchemeOnly(scheme: string)
    requires GoodScheme(scheme)
    ensures Parse(scheme + " " + "") == Header(scheme, map[], map[])
  {
    assert scheme + " " + "" == scheme + " ";
    TrimOfScheme(scheme);
    NoSpace(scheme);
  }

  lemma WholeOf(s: seq<string>)
    ensures s[..|s|] == s
  {
  }

  lemma ParsePrinted(scheme: string, keys: seq<string>, m: map<string, string>)
    requires GoodScheme(scheme) && Sorted(keys)
    requires forall k :: k in keys ==> k in m && GoodKey(k)
    ensures var h := Parse(scheme + " " + Join(keys, m));
      h.scheme == scheme && Holds(h, keys, m)
  {
    if |keys| == 0 {
      ParseSchemeOnly(scheme);
      hide Parse;
    } else {
      hide *;
      JoinEnds(keys, m);
      ParseTakesApart(scheme, Join(keys, m));
      SplitOfJoin(keys, m);
      AbsorbAllHolds(scheme, keys, m, |keys|);
      WholeOf(keys);
      WholeOf(Fields(keys, m));
    }
  }

  lemma TrimOfScheme(scheme: string)
    requires GoodScheme(scheme)
    ensures TrimSpace(scheme + " ") == scheme
  {
    assert (scheme + " ")[0] == scheme[0];
    TrimRightDrops(scheme, " ", IsSpace);
  }

  lemma {:induction false} NoSpace(s: string)
    requires ' ' !in s
    ensures IndexOf(s, ' ') == |s|
  {
    if s != "" {
      NoSpace(s[1..]);
    }
  }

  /** Parsing a printed header gives its scheme, every field with its quotes dropped, and in each named field
      the value of the last of its spellings. */
  lemma ParseRecoversPrinted(h: Header, text: string)
    requires Readable(h) && Prints(h, text)
    ensures var p := Parse(text);
      && p.scheme == Scheme(h) && p.fields.Keys == Merged(h).Keys
      && (forall k :: k in Merged(h) ==> p.fields[k] == Unquote(Merged(h)[k]))
      && (forall n, k :: LastSpelling(Merged(h), n, k) ==> Known(p, n) == Unquote(Merged(h)[k]))
      && (forall n :: Known(p, n) == "" || exists k :: LastSpelling(Merged(h), n, k))
  {
    var m := Merged(h);
    var keys :| Lists(keys, m.Keys) && text == Scheme(h) + " " + Join(keys, m);
    ParsePrinted(Scheme(h), keys, m);
    var p := Parse(text);
    hide Parse, Merged, Join, NameOf, Below, GoodScheme, GoodKey, LastOf, Unquote;
    forall n, k | LastSpelling(m, n, k)
      ensures Known(p, n) == Unquote(m[k])
    {
      SpellingIsLast(keys, m, n, k);
    }
    forall n | Known(p, n) != ""
      ensures exists k :: LastSpelling(m, n, k)
    {
      LastIsSpelling(keys, m, n);
    }
  }

  lemma LastIsSpelling(keys: seq<string>, m: map<string, string>, n: Name)
    requires Lists(keys, m.Keys) && LastOf(keys, n).Some?
    ensures LastSpelling(m, n, LastOf(keys, n).value)
  {
    forall x | x in m && NameOf(x) == Some(n)
      ensures Below(x, LastOf(keys, n).value)
    {
      LastIsGreatest(keys, n, x);
    }
  }

  lemma SpellingIsLast(keys: seq<string>, m: map<string, string>, n: Name, k: string)
    requires Lists(keys, m.Keys) && LastSpelling(m, n, k)
    ensures LastOf(keys, n) == Some(k)
  {
    LastIsGreatest(keys, n, k);
    BelowOrders(k, LastOf(keys, n).value, k);
  }

  /** With quote-free values nothing is lost: the fields are the header's own, each named field has the value of
      its last spelling, and so its own value unless another spelling is printed after the usual one. */
  lemma RoundTrip(h: Header, text: string)
    requires Readable(h) && Prints(h, text)
    requires forall k :: k in Merged(h) ==> '"' !in Merged(h)[k]
    ensures Parse(text).scheme == Scheme(h) && Parse(text).fields == Merged(h)
    ensures forall n, k :: LastSpelling(Merged(h), n, k) ==> Known(Parse(text), n) == Merged(h)[k]
    ensures forall n :: Known(h, n) != "" && LastSpelling(Merged(h), n, Text(n)) ==> Known(Parse(text), n) == Known(h, n)
  {
    ParseRecoversPrinted(h, text);
    forall k | k in Merged(h)
      ensures Unquote(Merged(h)[k]) == Merged(h)[k]
    {
      UnquoteIsQuoteFree(Merged(h)[k]);
    }
    forall n: Name | Known(h, n) != ""
      ensures Text(n) in Merged(h) && Merged(h)[Text(n)] == Known(h, n)
    {
      MergedKnown(h, n);
    }
    hide Parse, Merged, Prints;
  }

  lemma {:induction false} MergedKnownTo(h: Header, i: nat, n: nat)
    requires i < n <= |NAMES| && Known(h, NAMES[i]) != ""
    ensures Text(NAMES[i]) in MergedTo(h, n) && MergedTo(h, n)[Text(NAMES[i])] == Known(h, NAMES[i])
  {
    if i < n - 1 {
      MergedKnownTo(h, i, n - 1);
      assert NAMES[i] != NAMES[n - 1];
      NameOfText(NAMES[i]);
      NameOfText(NAMES[n - 1]);
      hide NameOf, Text;
    }
  }

  lemma MergedKnown(h: Header, n: Name)
    requires Known(h, n) != ""
    ensures Text(n) in Merged(h) && Merged(h)[Text(n)] == Known(h, n)
  {
    assert NAMES[0] == UserId && NAMES[1] == Client && NAMES[2] == Device;
    assert NAMES[3] == DeviceId && NAMES[4] == Version && NAMES[5] == Token;
    var i :| 0 <= i < 6 && NAMES[i] == n;
    MergedKnownTo(h, i, |NAMES|);
  }

  /** Merging adds nothing to a header whose named fields are among its fields. */
  lemma {:induction false} MergedIsFields(h: Header, n: nat)
    requires n <= |NAMES|
    requires forall x: Name :: Known(h, x) != "" ==> Text(x) in h.fields && h.fields[Text(x)] == Known(h, x)
    ensures MergedTo(h, n) == h.fields
  {
    if n > 0 {
      MergedIsFields(h, n - 1);
    }
  }

  /** The value of each name's last spelling is empty or also stands under the usual spelling. */
  ghost predicate UsuallySpelt(m: map<string, string>) {
    forall n, k :: LastSpelling(m, n, k) ==>
      Unquote(m[k]) == "" || (Text(n) in m && Unquote(m[Text(n)]) == Unquote(m[k]))
  }

  /** Printing what was parsed gives the same text again exactly if it adds or changes no named field. */
  lemma PrintingAgainExactly(h: Header, text: string, again: string)
    requires Readable(h) && Prints(h, text) && Prints(Parse(text), again)
    ensures again == text <==> UsuallySpelt(Merged(h))
  {
    if UsuallySpelt(Merged(h)) {
      SameTextAgain(h, text, again);
    }
    if again == text {
      StableIsUsual(h, text);
    }
  }

  lemma SameTextAgain(h: Header, text: string, again: string)
    requires Readable(h) && Prints(h, text) && Prints(Parse(text), again) && UsuallySpelt(Merged(h))
    ensures again == text
  {
    var p := Parse(text);
    ParseRecoversPrinted(h, text);
    NothingToMerge(h, p);
    hide Parse, MergedTo, LastSpelling, UsuallySpelt, Known;
    MergedIsFields(p, |NAMES|);
    var ka :| Lists(ka, Merged(h).Keys) && text == Scheme(h) + " " + Join(ka, Merged(h));
    var kb :| Lists(kb, Merged(p).Keys) && again == Scheme(p) + " " + Join(kb, Merged(p));
    ListingIsUnique(ka, kb, Merged(h).Keys);
    JoinOfUnquoted(ka, Merged(h), Merged(p));
  }

  lemma NothingToMerge(h: Header, p: Header)
    requires UsuallySpelt(Merged(h)) && p.fields.Keys == Merged(h).Keys
    requires forall k :: k in Merged(h) ==> p.fields[k] == Unquote(Merged(h)[k])
    requires forall n, k :: LastSpelling(Merged(h), n, k) ==> Known(p, n) == Unquote(Merged(h)[k])
    requires forall n :: Known(p, n) == "" || exists k :: LastSpelling(Merged(h), n, k)
    ensures forall x: Name :: Known(p, x) != "" ==> Text(x) in p.fields && p.fields[Text(x)] == Known(p, x)
  {
    hide Merged, LastSpelling, Known, Text, Unquote;
  }

  lemma StableIsUsual(h: Header, text: string)
    requires Readable(h) && Prints(h, text) && Prints(Parse(text), text)
    ensures UsuallySpelt(Merged(h))
  {
    var p := Parse(text);
    ParseRecoversPrinted(h, text);
    MergedStaysGood(p, |NAMES|);
    ParseRecoversPrinted(p, text);
    hide Parse, MergedTo, LastSpelling, Prints, GoodKey, GoodScheme;
    forall n, k | LastSpelling(Merged(h), n, k) && Unquote(Merged(h)[k]) != ""
      ensures Text(n) in Merged(h) && Unquote(Merged(h)[Text(n)]) == Unquote(Merged(h)[k])
    {
      MergedKnown(p, n);
      UnquoteIsQuoteFree(Merged(h)[k]);
      UnquoteIsQuoteFree(Unquote(Merged(h)[k]));
    }
  }

  lemma {:induction false} MergedStaysGood(h: Header, n: nat)
    requires n <= |NAMES| && forall k :: k in h.fields ==> GoodKey(k)
    ensures forall k :: k in MergedTo(h, n) ==> GoodKey(k)
  {
    if n > 0 {
      hide GoodKey;
      MergedStaysGood(h, n - 1);
      assert GoodKey(Text(NAMES[n - 1])) by { TextIsGood(NAMES[n - 1]); }
    }
  }

  lemma TextIsGood(n: Name)
    ensures GoodKey(Text(n))
  {
  }

  /** Keys that a field can carry, and no other spelling of a named field. */
  predicate Printable(h: Header) {
    Readable(h) && forall k :: k in Merged(h) && NameOf(k).Some? ==> k == Text(NameOf(k).value)
  }

  /** So a header with the usual spellings only prints the same again. */
  lemma PrintingAgain(h: Header, text: string, again: string)
    requires Printable(h) && Prints(h, text) && Prints(Parse(text), again)
    ensures again == text
  {
    hide Merged, Prints, Parse;
    PrintingAgainExactly(h, text, again);
  }

  /** A header whose only field is a token in lower case is printed with a second field after it was parsed. */
  lemma LoneLowerCaseToken(text: string, again: string)
    requires Prints(LoneToken(), text) && Prints(Parse(text), again)
    ensures Parse(text).fields == map["token" := "a"] && Known(Parse(text), Token) == "a" && again != text
  {
    hide *;
    LoneTokenIsPrinted();
    LoneTokenIsSpelt(Merged(LoneToken()));
    ParseRecoversPrinted(LoneToken(), text);
    PrintingAgainExactly(LoneToken(), text, again);
  }

  function LoneToken(): Header {
    Header("Emby", map[], map["token" := "a"])
  }

  lemma LoneTokenIsPrinted()
    ensures Merged(LoneToken()) == map["token" := "a"] && Readable(LoneToken())
  {
    MergedIsFields(LoneToken(), |NAMES|);
  }

  lemma LoneTokenIsSpelt(m: map<string, string>)
    requires m == map["token" := "a"]
    ensures LastSpelling(m, Token, "token") && Unquote(m["token"]) == "a" && !UsuallySpelt(m)
  {
    assert NameOf("token") == Some(Token) by { assert Lower("token") == "token"; }
    BelowOrders("token", "token", "");
    UnquoteIsQuoteFree("a");
    hide NameOf, Below, Unquote, Lower;
    assert LastSpelling(m, Token, "token");
    assert Text(Token) !in m;
  }

  lemma {:induction false} TailOfUnquoted(keys: seq<string>, a: map<string, string>, b: map<string, string>)
    requires forall k :: k in keys ==> k in a && k in b && b[k] == Unquote(a[k])
    ensures Tail(keys, a) == Tail(keys, b)
  {
    if |keys| > 0 {
      UnquoteIsQuoteFree(a[keys[0]]);
      UnquoteIsQuoteFree(b[keys[0]]);
      TailOfUnquoted(keys[1..], a, b);
    }
  }

  lemma JoinOfUnquoted(keys: seq<string>, a: map<string, string>, b: map<string, string>)
    requires forall k :: k in keys ==> k in a && k in b && b[k] == Unquote(a[k])
    ensures Join(keys, a) == Join(keys, b)
  {
    if |keys| > 0 {
      UnquoteIsQuoteFree(a[keys[0]]);
      UnquoteIsQuoteFree(b[keys[0]]);
      TailOfUnquoted(keys[1..], a, b);
    }
  }
}

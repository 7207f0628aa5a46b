/** The search store: the schema-driven parser from URL search parameters to
    a search query (`parseUrlToQuery`), the parameter builders of `set` and
    `searchFiles`, and `initialize`'s choice of source.

    A `URLSearchParams` is modelled as its ordered list of name/value pairs.
    The form-urlencoded text that `toString()` and the URL parser convert
    to and from is the platform's, and both sides of the round trip work on
    the same pair list. A query object is modelled as its own enumerable
    properties in enumeration order. */
module SearchStore {
  import opened Optional
  import opened JsValue

  /** The name/value pairs of a `URLSearchParams`, in order. */
  type Params = seq<(string, string)>

  /** A property value of a search query: `undefined`, `null`, a string, a
      number, a boolean or an array of strings. */
  datatype Value = Undef | Nil | Text(s: string) | Int(n: int) | Flag(b: bool) | List(items: seq<string>)

  /** A query object's properties in enumeration order. */
  type Query = seq<(string, Value)>

  /** Keys that may repeat in the URL and become arrays. */
  const MultiValueKeys: set<string> := {"file_type"}

  /** Keys read with `parseInt(value, 10)`. */
  const IntegerKeys: set<string> := {"duration_min", "duration_max", "folder_id", "page_size"}

  /** Keys read as booleans. */
  const BooleanKeys: set<string> := {"is_encrypted"}

  // ---------------------------------------------------------------------
  // Reading parameters
  // ---------------------------------------------------------------------

  /** The names of an ordered list of pairs: a parameter list's names, or a
      query's keys. */
  function Names<V>(ps: seq<(string, V)>): (r: seq<string>)
    ensures |r| == |ps| && forall i :: 0 <= i < |ps| ==> r[i] == ps[i].0
  {
    seq(|ps|, i requires 0 <= i < |ps| => ps[i].0)
  }

  predicate Distinct(s: seq<string>) {
    forall i, j :: 0 <= i < j < |s| ==> s[i] != s[j]
  }

  /** The distinct elements of `s` in order of first occurrence: the
      iteration order of `new Set(params.keys())`. */
  function Dedupe(s: seq<string>): (r: seq<string>)
    ensures Distinct(r)
    ensures forall x :: x in r <==> x in s
    decreases |s|
  {
    if |s| == 0 then []
    else
      var d := Dedupe(s[..|s| - 1]);
      assert forall x :: x in s <==> x in s[..|s| - 1] || x == s[|s| - 1];
      if s[|s| - 1] in d then d else d + [s[|s| - 1]]
  }

  /** `params.getAll(key)`. */
  function GetAll(ps: Params, key: string): seq<string>
    decreases |ps|
  {
    if |ps| == 0 then []
    else GetAll(ps[..|ps| - 1], key) + (if ps[|ps| - 1].0 == key then [ps[|ps| - 1].1] else [])
  }

  /** A name has values exactly when some pair carries it. */
  lemma {:induction false} GetAllEmpty(ps: Params, key: string)
    ensures GetAll(ps, key) == [] <==> key !in Names(ps)
    decreases |ps|
  {
    if |ps| > 0 {
      var front := ps[..|ps| - 1];
      GetAllEmpty(front, key);
      assert Names(ps) == Names(front) + [ps[|ps| - 1].0];
    }
  }

  /** `params.get(key)`: the first value, or `null`. */
  function Get(ps: Params, key: string): (r: Option<string>)
    ensures r.None? <==> key !in Names(ps)
  {
    GetAllEmpty(ps, key);
    var all := GetAll(ps, key);
    if all == [] then None else Some(all[0])
  }

  lemma {:induction false} GetAllAppend(a: Params, b: Params, key: string)
    ensures GetAll(a + b, key) == GetAll(a, key) + GetAll(b, key)
    decreases |b|
  {
    if |b| == 0 {
      assert a + b == a;
    } else {
      var b0 := b[..|b| - 1];
      assert (a + b)[..|a + b| - 1] == a + b0;
      GetAllAppend(a, b0, key);
    }
  }

  lemma GetAllCons(x: (string, string), rest: Params, key: string)
    ensures GetAll([x] + rest, key) == (if x.0 == key then [x.1] else []) + GetAll(rest, key)
  {
    GetAllAppend([x], rest, key);
    assert [x][..0] == [];
  }

  /** `values.filter(Boolean)` on strings: the non-empty ones, in order. */
  function NonEmpty(vs: seq<string>): (r: seq<string>)
    ensures forall i :: 0 <= i < |r| ==> r[i] != ""
    ensures forall x :: x in r <==> x in vs && x != ""
    ensures (forall i :: 0 <= i < |vs| ==> vs[i] != "") ==> r == vs
    decreases |vs|
  {
    if |vs| == 0 then []
    else
      var front := vs[..|vs| - 1];
      assert vs == front + [vs[|vs| - 1]];
      NonEmpty(front) + (if vs[|vs| - 1] != "" then [vs[|vs| - 1]] else [])
  }

  /** `filter(Boolean)` keeps each non-empty value as many times as it
      occurs and drops every empty one. */
  lemma {:induction false} NonEmptyCounts(vs: seq<string>)
    ensures multiset(NonEmpty(vs)) == multiset(vs)["" := 0]
    decreases |vs|
  {
    if |vs| > 0 {
      var front := vs[..|vs| - 1];
      assert vs == front + [vs[|vs| - 1]];
      assert multiset(vs) == multiset(front) + multiset{vs[|vs| - 1]};
      NonEmptyCounts(front);
    }
  }

  /** Filtering distributes over concatenation, and keeps a single value
      exactly when it is non-empty: so the kept values stay in their order. */
  lemma {:induction false} NonEmptyAppend(a: seq<string>, b: seq<string>)
    ensures NonEmpty(a + b) == NonEmpty(a) + NonEmpty(b)
    ensures NonEmpty([]) == [] && forall x :: NonEmpty([x]) == (if x == "" then [] else [x])
    decreases |b|
  {
    assert forall x: string :: [x][..0] == [];
    if |b| == 0 {
      assert a + b == a;
    } else {
      var b0 := b[..|b| - 1];
      assert (a + b)[..|a + b| - 1] == a + b0;
      NonEmptyAppend(a, b0);
    }
  }

  function LowerChar(c: char): char {
    if 'A' <= c <= 'Z' then (c as int + 32) as char else c
  }

  /** `toLowerCase()` on the ASCII letters. */
  function LowerAscii(s: string): (r: string)
    ensures |r| == |s| && forall i :: 0 <= i < |s| ==> r[i] == LowerChar(s[i])
  {
    seq(|s|, i requires 0 <= i < |s| => LowerChar(s[i]))
  }

  /** What the parser stores for one key, if anything. */
  function ParseEntry(ps: Params, key: string): Option<Value> {
    if key in MultiValueKeys then
      var values := NonEmpty(GetAll(ps, key));
      if values == [] then None else Some(List(values))
    else match Get(ps, key)
      case None => None
      case Some(value) =>
        if value == "" then None
        else if key in IntegerKeys then
          (match ParseInt(value)
           case Some(n) => Some(Int(n))
           case None => None)
        else if key in BooleanKeys then Some(Flag(LowerAscii(value) == "true"))
        else Some(Text(value))
  }

  /** The value stored under `key`, if any. */
  function Lookup(q: Query, key: string): Option<Value>
    decreases |q|
  {
    if |q| == 0 then None
    else if q[|q| - 1].0 == key then Some(q[|q| - 1].1)
    else Lookup(q[..|q| - 1], key)
  }

  /** The parser's loop over `keys`, in order. */
  function Collect(ps: Params, keys: seq<string>): (q: Query)
    ensures forall i :: 0 <= i < |q| ==> q[i].0 in keys
    decreases |keys|
  {
    if |keys| == 0 then []
    else
      var front := keys[..|keys| - 1];
      var key := keys[|keys| - 1];
      var q0 := Collect(ps, front);
      match ParseEntry(ps, key)
      case Some(v) => q0 + [(key, v)]
      case None => q0
  }

  lemma {:induction false} CollectDistinct(ps: Params, keys: seq<string>)
    requires Distinct(keys)
    ensures Distinct(Names(Collect(ps, keys)))
    decreases |keys|
  {
    if |keys| > 0 {
      var front := keys[..|keys| - 1];
      var key := keys[|keys| - 1];
      CollectDistinct(ps, front);
      var q0 := Collect(ps, front);
      if ParseEntry(ps, key).Some? {
        var q := Collect(ps, keys);
        assert q == q0 + [(key, ParseEntry(ps, key).value)];
        assert Names(q) == Names(q0) + [key];
        forall i | 0 <= i < |q0| ensures Names(q0)[i] != key {
          var j :| 0 <= j < |front| && front[j] == q0[i].0;
          assert keys[j] == front[j];
        }
      }
    }
  }

  lemma {:induction false} CollectLookup(ps: Params, keys: seq<string>, k: string)
    requires Distinct(keys)
    ensures Lookup(Collect(ps, keys), k) == (if k in keys then ParseEntry(ps, k) else None)
    decreases |keys|
  {
    if |keys| > 0 {
      var front := keys[..|keys| - 1];
      var key := keys[|keys| - 1];
      assert forall x :: x in keys <==> x in front || x == key;
      assert key !in front by {
        forall j | 0 <= j < |front| ensures front[j] != key {
          assert keys[j] == front[j];
        }
      }
      CollectLookup(ps, front, k);
      var q0 := Collect(ps, front);
      if ParseEntry(ps, key).Some? {
        var q := q0 + [(key, ParseEntry(ps, key).value)];
        assert q[..|q| - 1] == q0;
      }
    }
  }

  lemma CollectLookupAll(ps: Params, keys: seq<string>)
    requires Distinct(keys)
    ensures forall k :: Lookup(Collect(ps, keys), k) == (if k in keys then ParseEntry(ps, k) else None)
  {
    forall k ensures Lookup(Collect(ps, keys), k) == (if k in keys then ParseEntry(ps, k) else None) {
      CollectLookup(ps, keys, k);
    }
  }

  /** `parseUrlToQuery`: each distinct key is handled once, in order of first
      occurrence, and stored as its schema says. */
  function ParseUrlToQuery(ps: Params): (q: Query)
    ensures Distinct(Names(q))
    ensures forall i :: 0 <= i < |q| ==> q[i].0 in Names(ps)
    ensures forall k :: Lookup(q, k) == (if k in Names(ps) then ParseEntry(ps, k) else None)
  {
    var keys := Dedupe(Names(ps));
    CollectDistinct(ps, keys);
    CollectLookupAll(ps, keys);
    Collect(ps, keys)
  }

  // ---------------------------------------------------------------------
  // The parser's per-key promises
  // ---------------------------------------------------------------------

  /** `file_type` keeps every non-empty value, in order, and is absent when
      there is none. */
  lemma FileTypeKeepsNonEmptyValues(ps: Params)
    ensures var values := NonEmpty(GetAll(ps, "file_type"));
      Lookup(ParseUrlToQuery(ps), "file_type") == (if values == [] then None else Some(List(values)))
  {
    var key := "file_type";
    assert key in MultiValueKeys;
    GetAllEmpty(ps, key);
  }

  /** A single-value key whose first value is empty never appears. */
  lemma EmptyFirstValueIsDropped(ps: Params, key: string)
    requires key !in MultiValueKeys
    requires Get(ps, key) == Some("")
    ensures Lookup(ParseUrlToQuery(ps), key) == None
  {
  }

  /** An integer key appears exactly when `parseInt` reads a number from its
      first value, and then holds that number. */
  lemma IntegerKeyNeedsANumber(ps: Params, key: string)
    requires key in IntegerKeys && Get(ps, key).Some?
    ensures var first := Get(ps, key).value;
      Lookup(ParseUrlToQuery(ps), key) == (if first != "" && ParseInt(first).Some? then Some(Int(ParseInt(first).value)) else None)
  {
  }

  /** `is_encrypted` is true exactly when its first value is `true` in any
      letter case. */
  lemma BooleanKeyIsTrueOnlyForTrue(ps: Params)
    requires Get(ps, "is_encrypted").Some? && Get(ps, "is_encrypted").value != ""
    ensures Lookup(ParseUrlToQuery(ps), "is_encrypted") == Some(Flag(LowerAscii(Get(ps, "is_encrypted").value) == "true"))
  {
    var key := "is_encrypted";
    assert key !in MultiValueKeys && key !in IntegerKeys && key in BooleanKeys;
    assert ParseEntry(ps, key) == Some(Flag(LowerAscii(Get(ps, key).value) == "true"));
  }

  /** Any other key holds its first value verbatim. */
  lemma OtherKeysAreVerbatim(ps: Params, key: string)
    requires key !in MultiValueKeys && key !in IntegerKeys && key !in BooleanKeys
    requires Get(ps, key).Some? && Get(ps, key).value != ""
    ensures Lookup(ParseUrlToQuery(ps), key) == Some(Text(Get(ps, key).value))
  {
  }

  // ---------------------------------------------------------------------
  // Building parameters
  // ---------------------------------------------------------------------

  /** The builders skip `undefined`, `null` and `''`. */
  predicate Emits(v: Value) {
    !(v.Undef? || v.Nil? || v == Text(""))
  }

  /** `String(value)` for a non-array value. */
  function Stringify(v: Value): string
    requires !v.List?
  {
    match v
    case Undef => "undefined"
    case Nil => "null"
    case Text(s) => s
    case Int(n) => Decimal(n)
    case Flag(b) => if b then "true" else "false"
  }

  /** The pairs one property contributes when appended: one per array
      element, or one for a single value. */
  function Block(key: string, v: Value): (r: Params)
    ensures forall i :: 0 <= i < |r| ==> r[i].0 == key
    ensures !Emits(v) ==> r == []
    ensures Emits(v) && !v.List? ==> |r| == 1 && r[0].1 == Stringify(v)
    ensures v.List? ==> |r| == |v.items| && forall i :: 0 <= i < |r| ==> r[i].1 == v.items[i]
  {
    if !Emits(v) then []
    else if v.List? then seq(|v.items|, i requires 0 <= i < |v.items| => (key, v.items[i]))
    else [(key, Stringify(v))]
  }

  /** `searchFiles`' parameters: every property appended in order. */
  function SearchFilesParams(q: Query): Params
    decreases |q|
  {
    if |q| == 0 then [] else SearchFilesParams(q[..|q| - 1]) + Block(q[|q| - 1].0, q[|q| - 1].1)
  }

  /** `params.set(key, value)`: the first pair named `key` takes the value
      and the others named `key` go; with none, the pair is appended. */
  function ParamSet(ps: Params, key: string, value: string): (r: Params)
    ensures key !in Names(ps) ==> r == ps + [(key, value)]
  {
    if key !in Names(ps) then ps + [(key, value)] else ReplaceFirst(ps, key, value)
  }

  function ReplaceFirst(ps: Params, key: string, value: string): Params
    decreases |ps|
  {
    if |ps| == 0 then []
    else if ps[0].0 == key then [(key, value)] + DropNamed(ps[1..], key)
    else [ps[0]] + ReplaceFirst(ps[1..], key, value)
  }

  function DropNamed(ps: Params, key: string): Params
    decreases |ps|
  {
    if |ps| == 0 then [] else (if ps[0].0 == key then [] else [ps[0]]) + DropNamed(ps[1..], key)
  }

  lemma {:induction false} DropNamedGetAll(ps: Params, key: string, k: string)
    ensures GetAll(DropNamed(ps, key), k) == (if k == key then [] else GetAll(ps, k))
    decreases |ps|
  {
    if |ps| > 0 {
      var rest := ps[1..];
      var dropped := DropNamed(rest, key);
      DropNamedGetAll(rest, key, k);
      assert ps == [ps[0]] + rest;
      GetAllCons(ps[0], rest, k);
      if ps[0].0 == key {
        assert DropNamed(ps, key) == [] + dropped == dropped;
      } else {
        assert DropNamed(ps, key) == [ps[0]] + dropped;
        GetAllCons(ps[0], dropped, k);
      }
    }
  }

  lemma {:induction false} ReplaceFirstGetAll(ps: Params, key: string, value: string, k: string)
    requires key in Names(ps)
    ensures GetAll(ReplaceFirst(ps, key, value), k) == (if k == key then [value] else GetAll(ps, k))
    decreases |ps|
  {
    assert ps == [ps[0]] + ps[1..];
    GetAllCons(ps[0], ps[1..], k);
    if ps[0].0 == key {
      DropNamedGetAll(ps[1..], key, k);
      GetAllCons((key, value), DropNamed(ps[1..], key), k);
    } else {
      assert key in Names(ps[1..]) by {
        var i :| 0 <= i < |ps| && Names(ps)[i] == key;
        assert Names(ps[1..])[i - 1] == key;
      }
      ReplaceFirstGetAll(ps[1..], key, value, k);
      GetAllCons(ps[0], ReplaceFirst(ps[1..], key, value), k);
    }
  }

  /** After `params.set(key, value)`, `key` has exactly that one value and
      every other name keeps its values. */
  lemma ParamSetGetAll(ps: Params, key: string, value: string, k: string)
    ensures GetAll(ParamSet(ps, key, value), k) == (if k == key then [value] else GetAll(ps, k))
  {
    if key in Names(ps) {
      ReplaceFirstGetAll(ps, key, value, k);
    } else {
      GetAllEmpty(ps, key);
      GetAllAppend(ps, [(key, value)], k);
      GetAllCons((key, value), [], k);
      assert [(key, value)] + [] == [(key, value)];
    }
  }

  /** The loop in `set`: arrays append element by element, other emitted
      values go through `params.set`. */
  function SetParams(q: Query): Params
    decreases |q|
  {
    if |q| == 0 then []
    else
      var ps := SetParams(q[..|q| - 1]);
      var (key, v) := q[|q| - 1];
      if !Emits(v) then ps
      else if v.List? then ps + Block(key, v)
      else ParamSet(ps, key, Stringify(v))
  }

  /** The last key of a query with distinct keys is not among the earlier
      ones. */
  lemma LastKeyIsNew(q: Query)
    requires Distinct(Names(q)) && |q| > 0
    ensures q[|q| - 1].0 !in Names(q[..|q| - 1])
  {
    var earlier := Names(q[..|q| - 1]);
    forall i | 0 <= i < |earlier| ensures earlier[i] != q[|q| - 1].0 {
      assert Names(q)[i] == earlier[i];
    }
  }

  lemma NamesOfFront(q: Query)
    requires |q| > 0
    ensures Names(q) == Names(q[..|q| - 1]) + [q[|q| - 1].0]
  {
  }

  lemma {:induction false} SetParamsNames(q: Query)
    ensures forall n :: n in Names(SetParams(q)) ==> n in Names(q)
    decreases |q|
  {
    if |q| > 0 {
      var front := q[..|q| - 1];
      var (key, v) := q[|q| - 1];
      SetParamsNames(front);
      NamesOfFront(q);
      forall n | n in Names(SetParams(q)) ensures n in Names(q) {
        var ps := SetParams(front);
        GetAllEmpty(SetParams(q), n);
        GetAllEmpty(ps, n);
        if Emits(v) && !v.List? {
          ParamSetGetAll(ps, key, Stringify(v), n);
        } else if Emits(v) {
          GetAllAppend(ps, Block(key, v), n);
          GetAllOfBlock(key, v, n);
        }
      }
    }
  }

  /** Since a query's keys are distinct, `set` and `searchFiles` build the
      same parameters. */
  lemma {:induction false} SetAgreesWithSearchFiles(q: Query)
    requires Distinct(Names(q))
    ensures SetParams(q) == SearchFilesParams(q)
    decreases |q|
  {
    if |q| > 0 {
      var front := q[..|q| - 1];
      NamesOfFront(q);
      SetAgreesWithSearchFiles(front);
      SetParamsNames(front);
      LastKeyIsNew(q);
    }
  }

  /** Where `set` navigates: the target path and, when there are parameters,
      the query part. `query == None` is a route without `?`
      (`params.toString()` is empty exactly when there are no pairs). */
  datatype Href = Href(path: string, query: Option<Params>)

  /** What `set(query, route?)` does besides saving the query: the store
      takes the query, and the browser navigates to the returned route. */
  datatype SetOutcome = SetOutcome(stored: Query, destination: Href)

  function Set(q: Query, route: Option<string>, browser: bool, pathname: string): (r: SetOutcome)
    ensures r.stored == q
    ensures r.destination.path == (if route.Some? then route.value else if browser then pathname else "/search")
    ensures r.destination.query.None? <==> SetParams(q) == []
    ensures r.destination.query.Some? ==> r.destination.query.value == SetParams(q)
  {
    var target := if route.Some? then route.value else if browser then pathname else "/search";
    var ps := SetParams(q);
    SetOutcome(q, Href(target, if ps == [] then None else Some(ps)))
  }

  /** The request `searchFiles` makes: always `/api/cards?` followed by the
      parameters. */
  function SearchFilesRequest(q: Query): (r: Href)
    ensures r.path == "/api/cards" && r.query == Some(SearchFilesParams(q))
  {
    Href("/api/cards", Some(SearchFilesParams(q)))
  }

  /** `initialize(url)`: the URL's parameters when it has a search string,
      else the saved query in the browser, else the empty query. */
  function Initialize(search: string, ps: Params, browser: bool, saved: Query): (q: Query)
    ensures search != "" ==> q == ParseUrlToQuery(ps)
    ensures search == "" && browser ==> q == saved
    ensures search == "" && !browser ==> q == []
  {
    if search != "" then ParseUrlToQuery(ps) else if browser then saved else []
  }

  // ---------------------------------------------------------------------
  // Round trip
  // ---------------------------------------------------------------------

  /** A query of the shape the parser produces: distinct keys, each value of
      its key's schema type, strings and list elements non-empty. */
  predicate Canonical(q: Query) {
    && Distinct(Names(q))
    && forall i :: 0 <= i < |q| ==> CanonicalEntry(q[i].0, q[i].1)
  }

  predicate CanonicalEntry(key: string, v: Value) {
    if key in MultiValueKeys then v.List? && |v.items| > 0 && forall j :: 0 <= j < |v.items| ==> v.items[j] != ""
    else if key in IntegerKeys then v.Int?
    else if key in BooleanKeys then v.Flag?
    else v.Text? && v.s != ""
  }

  /** The values `getAll` returns for a property's own pairs. */
  function BlockValues(v: Value): seq<string>
    requires Emits(v)
  {
    if v.List? then v.items else [Stringify(v)]
  }

  lemma {:induction false} GetAllOfBlock(k: string, v: Value, key: string)
    ensures key != k ==> GetAll(Block(k, v), key) == []
    ensures key == k && Emits(v) ==> GetAll(Block(k, v), key) == BlockValues(v)
  {
    var b := Block(k, v);
    if key != k {
      assert key !in Names(b);
      GetAllEmpty(b, key);
    } else if Emits(v) {
      AllNamedGetAll(b, k);
      if v.List? {
        assert Values(b) == v.items;
      }
    }
  }

  function Values(ps: Params): (r: seq<string>)
    ensures |r| == |ps| && forall i :: 0 <= i < |ps| ==> r[i] == ps[i].1
  {
    seq(|ps|, i requires 0 <= i < |ps| => ps[i].1)
  }

  lemma {:induction false} AllNamedGetAll(ps: Params, key: string)
    requires forall i :: 0 <= i < |ps| ==> ps[i].0 == key
    ensures GetAll(ps, key) == Values(ps)
    decreases |ps|
  {
    if |ps| > 0 {
      AllNamedGetAll(ps[..|ps| - 1], key);
      assert Values(ps) == Values(ps[..|ps| - 1]) + [ps[|ps| - 1].1];
    }
  }

  /** In the parameters of a query with distinct keys, a key's values are
      exactly its own property's. */
  lemma {:induction false} GetAllOfQuery(q: Query, i: nat)
    requires Distinct(Names(q)) && i < |q|
    ensures Emits(q[i].1) ==> GetAll(SearchFilesParams(q), q[i].0) == BlockValues(q[i].1)
    ensures !Emits(q[i].1) ==> GetAll(SearchFilesParams(q), q[i].0) == []
    decreases |q|
  {
    var front := q[..|q| - 1];
    var last := q[|q| - 1];
    var key := q[i].0;
    GetAllAppend(SearchFilesParams(front), Block(last.0, last.1), key);
    GetAllOfBlock(last.0, last.1, key);
    if i == |q| - 1 {
      KeyAbsentFromFront(q);
    } else {
      assert Names(front) == Names(q)[..|q| - 1];
      assert front[i] == q[i];
      GetAllOfQuery(front, i);
      assert Names(q)[i] != Names(q)[|q| - 1];
    }
  }

  /** The last key of a query with distinct keys names none of the pairs
      built from the properties before it. */
  lemma KeyAbsentFromFront(q: Query)
    requires Distinct(Names(q)) && |q| > 0
    ensures GetAll(SearchFilesParams(q[..|q| - 1]), q[|q| - 1].0) == []
  {
    SetAgreesWithSearchFiles(q[..|q| - 1]);
    SetParamsNames(q[..|q| - 1]);
    LastKeyIsNew(q);
    GetAllEmpty(SearchFilesParams(q[..|q| - 1]), q[|q| - 1].0);
  }

  lemma CanonicalFront(q: Query)
    requires Canonical(q) && |q| > 0
    ensures Canonical(q[..|q| - 1])
    ensures CanonicalEntry(q[|q| - 1].0, q[|q| - 1].1)
  {
    var front := q[..|q| - 1];
    NamesOfFront(q);
    assert forall i :: 0 <= i < |front| ==> front[i] == q[i];
  }

  /** A canonical property is always emitted, as at least one pair. */
  lemma CanonicalIsEmitted(key: string, v: Value)
    requires CanonicalEntry(key, v)
    ensures Emits(v) && |Block(key, v)| > 0
  {
  }

  /** The distinct names of a canonical query's parameters are its keys. */
  lemma {:induction false} UniqueNamesOfQuery(q: Query)
    requires Canonical(q)
    ensures Dedupe(Names(SearchFilesParams(q))) == Names(q)
    decreases |q|
  {
    if |q| > 0 {
      var front := q[..|q| - 1];
      var (key, v) := q[|q| - 1];
      CanonicalFront(q);
      UniqueNamesOfQuery(front);
      var a := SearchFilesParams(front);
      var b := Block(key, v);
      assert SearchFilesParams(q) == a + b;
      CanonicalIsEmitted(key, v);
      KeyAbsentFromFront(q);
      GetAllEmpty(a, key);
      assert Names(a + b) == Names(a) + Names(b);
      assert Names(b) == Repeat(key, |b|);
      DedupeRepeated(Names(a), key, |b|);
      NamesOfFront(q);
    }
  }

  function Repeat(x: string, n: nat): (r: seq<string>)
    ensures |r| == n && forall i :: 0 <= i < n ==> r[i] == x
  {
    seq(n, i => x)
  }

  lemma {:induction false} DedupeRepeated(a: seq<string>, x: string, n: nat)
    requires x !in a && n > 0
    ensures Dedupe(a + Repeat(x, n)) == Dedupe(a) + [x]
    decreases n
  {
    var s := a + Repeat(x, n);
    assert s[..|s| - 1] == a + Repeat(x, n - 1);
    if n == 1 {
      assert a + Repeat(x, 0) == a;
    } else {
      DedupeRepeated(a, x, n - 1);
    }
  }

  /** A canonical value parses back from the values it is written as. */
  lemma ParseEntryOfValues(ps: Params, key: string, v: Value)
    requires CanonicalEntry(key, v)
    requires Emits(v) && GetAll(ps, key) == BlockValues(v)
    ensures ParseEntry(ps, key) == Some(v)
  {
    if key in MultiValueKeys {
      assert NonEmpty(GetAll(ps, key)) == v.items;
    } else {
      var first := Stringify(v);
      assert Get(ps, key) == Some(first);
      if key in IntegerKeys {
        ParseIntOfDecimal(v.n);
        assert first != "" by { assert Decimal(v.n)[0] == first[0]; }
      } else if key in BooleanKeys {
        BooleanRoundTrip(v.b);
      }
    }
  }

  lemma BooleanRoundTrip(b: bool)
    ensures var text := if b then "true" else "false";
      text != "" && (LowerAscii(text) == "true" <==> b)
  {
    assert LowerAscii("true") == "true";
    assert |LowerAscii("false")| == 5;
  }

  /** Each property of a canonical query parses back to itself. */
  lemma ParseEntryOfQuery(q: Query, i: nat)
    requires Canonical(q) && i < |q|
    ensures ParseEntry(SearchFilesParams(q), q[i].0) == Some(q[i].1)
  {
    assert CanonicalEntry(q[i].0, q[i].1);
    CanonicalIsEmitted(q[i].0, q[i].1);
    GetAllOfQuery(q, i);
    ParseEntryOfValues(SearchFilesParams(q), q[i].0, q[i].1);
  }

  lemma CollectStep(ps: Params, keys: seq<string>, entry: (string, Value))
    requires ParseEntry(ps, entry.0) == Some(entry.1)
    ensures Collect(ps, keys + [entry.0]) == Collect(ps, keys) + [entry]
  {
    assert (keys + [entry.0])[..|keys|] == keys;
  }

  /** The parser's loop rebuilds a query when every key parses back to its
      value. */
  lemma {:induction false} CollectQuery(ps: Params, q: Query, n: nat)
    requires n <= |q|
    requires forall i :: 0 <= i < |q| ==> ParseEntry(ps, q[i].0) == Some(q[i].1)
    ensures Collect(ps, Names(q)[..n]) == q[..n]
    decreases n
  {
    if n > 0 {
      var front := Names(q)[..n - 1];
      assert Names(q)[..n] == front + [q[n - 1].0];
      CollectQuery(ps, q, n - 1);
      CollectStep(ps, front, q[n - 1]);
      assert q[..n] == q[..n - 1] + [q[n - 1]];
    }
  }

  /** Round trip: parsing the parameters `set` builds from a canonical query
      gives the query back, which is why the URL can be `initialize`'s source
      of truth. */
  lemma ParseUndoesSet(q: Query)
    requires Canonical(q)
    ensures ParseUrlToQuery(SetParams(q)) == q
  {
    SetAgreesWithSearchFiles(q);
    UniqueNamesOfQuery(q);
    forall i | 0 <= i < |q|
      ensures ParseEntry(SearchFilesParams(q), q[i].0) == Some(q[i].1)
    {
      ParseEntryOfQuery(q, i);
    }
    CollectQuery(SearchFilesParams(q), q, |q|);
    assert Names(q)[..|q|] == Names(q);
    assert q[..|q|] == q;
  }

  /** A URL written by `set` from a canonical query initializes the store to
      that query, in and out of the browser. */
  lemma InitializeFromSetUrl(q: Query, browser: bool, saved: Query)
    requires Canonical(q) && SetParams(q) != []
    ensures Initialize("?", Set(q, None, browser, "/search").destination.query.value, browser, saved) == q
  {
    ParseUndoesSet(q);
  }
}

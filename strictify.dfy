/** The JSON-Schema preprocessor that prepares a response schema for the
    Responses API's strict mode (`_preprocess_for_openai`): sibling keys of
    `$ref` are dropped, and every node with a `properties` object gets a sorted,
    de-duplicated `required` list and `additionalProperties: false`.

    The source works on a deep copy of its argument and mutates that copy in
    place; here the schema is a value, so the caller's schema is untouched by
    construction. */
module Strictify {
  import opened Wrappers
  import opened Json

  // ---------------------------------------------------------------------------
  // Python's order on `str` (code point by code point) and `sorted(set)`.

  /** `a < b` on Python strings. */
  predicate Below(a: string, b: string) {
    if a == [] then b != []
    else if b == [] then false
    else if a[0] == b[0] then Below(a[1..], b[1..])
    else a[0] < b[0]
  }

  lemma {:induction false} BelowAsym(a: string, b: string)
    ensures !(Below(a, b) && Below(b, a))
  {
    if a != [] && b != [] && a[0] == b[0] { BelowAsym(a[1..], b[1..]); }
  }

  lemma {:induction false} BelowTrans(a: string, b: string, c: string)
    requires Below(a, b) && Below(b, c)
    ensures Below(a, c)
  {
    if a != [] && b != [] && c != [] && a[0] == b[0] && b[0] == c[0] {
      BelowTrans(a[1..], b[1..], c[1..]);
    }
  }

  lemma {:induction false} BelowTotal(a: string, b: string)
    ensures a == b || Below(a, b) || Below(b, a)
  {
    if a != [] && b != [] && a[0] == b[0] {
      BelowTotal(a[1..], b[1..]);
      assert a == [a[0]] + a[1..] && b == [b[0]] + b[1..];
    }
  }

  predicate IsLeast(m: string, s: set<string>) {
    m in s && forall x :: x in s && x != m ==> Below(m, x)
  }

  lemma {:induction false} LeastExists(s: set<string>)
    requires s != {}
    ensures exists m :: IsLeast(m, s)
    decreases |s|
  {
    var y :| y in s;
    if s == {y} {
      assert IsLeast(y, s);
    } else {
      LeastExists(s - {y});
      var m :| IsLeast(m, s - {y});
      BelowTotal(m, y);
      if Below(m, y) {
        assert IsLeast(m, s);
      } else {
        forall x | x in s && x != y ensures Below(y, x) {
          if x != m { BelowTrans(y, m, x); }
        }
        assert IsLeast(y, s);
      }
    }
  }

  lemma LeastUnique(s: set<string>)
    ensures forall m1, m2 :: IsLeast(m1, s) && IsLeast(m2, s) ==> m1 == m2
  {
    forall m1, m2 | IsLeast(m1, s) && IsLeast(m2, s) ensures m1 == m2 {
      if m1 != m2 { BelowAsym(m1, m2); }
    }
  }

  predicate StrictlySorted(r: seq<string>) {
    forall i, j :: 0 <= i < j < |r| ==> Below(r[i], r[j])
  }

  /** `sorted(s)` for a set of strings: ascending, without duplicates, same elements. */
  function SortSet(s: set<string>): (r: seq<string>)
    ensures |r| == |s|
    ensures forall x :: x in s <==> x in r
    ensures StrictlySorted(r)
    decreases |s|
  {
    if s == {} then []
    else
      LeastExists(s);
      LeastUnique(s);
      var m :| IsLeast(m, s);
      var rest := SortSet(s - {m});
      [m] + rest
  }

  /** The head of a strictly ascending list is below every later element, so it does not recur. */
  lemma HeadLeast(r: seq<string>)
    requires StrictlySorted(r) && r != []
    ensures IsLeast(r[0], set x | x in r)
    ensures r[0] !in r[1..]
  {
    forall x | x in r && x != r[0] ensures Below(r[0], x) {
      var j :| 0 <= j < |r| && r[j] == x;
    }
    if r[0] in r[1..] {
      var j :| 0 <= j < |r[1..]| && r[1..][j] == r[0];
      assert Below(r[0], r[j + 1]);
      BelowAsym(r[0], r[0]);
    }
  }

  /** Two strictly ascending lists with the same elements are equal. */
  lemma {:induction false} SortedUnique(a: seq<string>, b: seq<string>)
    requires StrictlySorted(a) && StrictlySorted(b)
    requires forall x :: x in a <==> x in b
    ensures a == b
    decreases |a|
  {
    assert a != [] ==> a[0] in b;
    assert b != [] ==> b[0] in a;
    if a != [] && b != [] {
      HeadLeast(a);
      HeadLeast(b);
      LeastUnique(set x | x in a);
      assert (set x | x in a) == (set x | x in b);
      assert a[0] == b[0];
      forall x ensures x in a[1..] <==> x in b[1..] {
        assert a == [a[0]] + a[1..] && b == [b[0]] + b[1..];
        assert x in a <==> x == a[0] || x in a[1..];
        assert x in b <==> x == b[0] || x in b[1..];
      }
      SortedUnique(a[1..], b[1..]);
      assert a == [a[0]] + a[1..] && b == [b[0]] + b[1..];
    }
  }

  // ---------------------------------------------------------------------------
  // The value-level pieces of the transform.

  /** A JSON list of strings. */
  function StrList(xs: seq<string>): (r: Value)
    ensures r.JArr? && |r.items| == |xs|
    ensures forall i :: 0 <= i < |xs| ==> r.items[i] == JStr(xs[i])
  {
    JArr(seq(|xs|, i requires 0 <= i < |xs| => JStr(xs[i])))
  }

  /** The names in `set(node.get("required") or [])`, where a `TypeError` gives
      the empty set: the string entries of a list whose entries are all hashable
      (a list or dictionary entry makes `set()` raise), the characters of a
      string, the keys of a dictionary. A truthy number or boolean makes `set()`
      raise too, so it gives nothing. */
  function RequiredSet(m: map<string, Value>): set<string> {
    if "required" !in m || !Truthy(m["required"]) then {}
    else match m["required"]
      case JArr(xs) =>
        if !Hashable(xs) then {}
        else set i | 0 <= i < |xs| && xs[i].JStr? :: xs[i].s
      case JStr(s) => set i | 0 <= i < |s| :: [s[i]]
      case JObj(d) => d.Keys
      case _ => {}
  }

  /** `set(xs)` accepts a list exactly when no entry is a list or a dictionary. */
  predicate Hashable(xs: seq<Value>) {
    forall i :: 0 <= i < |xs| ==> !xs[i].JArr? && !xs[i].JObj?
  }

  /** The entries of `xs` that are not strings, in order. */
  function NonStrings(xs: seq<Value>): (r: seq<Value>)
    ensures forall x :: x in r <==> x in xs && !x.JStr?
  {
    if xs == [] then []
    else
      assert xs == xs[..|xs| - 1] + [xs[|xs| - 1]];
      NonStrings(xs[..|xs| - 1]) + (if xs[|xs| - 1].JStr? then [] else [xs[|xs| - 1]])
  }

  /** The entries of the old `required` that `set()` keeps besides names: the
      `null`s, booleans and numbers of a hashable list. */
  function OtherRequired(m: map<string, Value>): (r: seq<Value>)
    ensures forall i :: 0 <= i < |r| ==> r[i].JNull? || r[i].JBool? || r[i].JNum?
  {
    if "required" in m && m["required"].JArr? && Hashable(m["required"].items) then
      var xs := m["required"].items;
      NonStringsOfHashable(xs);
      NonStrings(xs)
    else []
  }

  /** A `null`, boolean or number. */
  predicate Scalar(v: Value) {
    v.JNull? || v.JBool? || v.JNum?
  }

  lemma NonStringsOfHashable(xs: seq<Value>)
    requires Hashable(xs)
    ensures forall i :: 0 <= i < |NonStrings(xs)| ==> Scalar(NonStrings(xs)[i])
  {
    var r := NonStrings(xs);
    forall i | 0 <= i < |r| ensures Scalar(r[i]) {
      assert r[i] in r;
      var j :| 0 <= j < |xs| && xs[j] == r[i];
    }
  }

  /** `isinstance(node.get("properties"), dict)`. */
  predicate HasPropsObject(m: map<string, Value>) {
    "properties" in m && m["properties"].JObj?
  }

  /** The names of `set(props.keys()) | existing_set`. */
  function Names(m: map<string, Value>): set<string>
    requires HasPropsObject(m)
  {
    m["properties"].fields.Keys + RequiredSet(m)
  }

  /** `sorted(all_keys)` raises `TypeError` when it must compare values of two
      kinds Python does not order: a name with a non-name, or `None` with
      anything else (numbers and booleans compare with each other). */
  predicate SortRaises(m: map<string, Value>)
    requires HasPropsObject(m)
  {
    var others := OtherRequired(m);
    others != [] && (Names(m) != {} || (JNull in others && exists i :: 0 <= i < |others| && others[i] != JNull))
  }

  /** The sorted names as a JSON list. */
  function NameList(m: map<string, Value>): Value
    requires HasPropsObject(m)
  {
    StrList(SortSet(Names(m)))
  }

  /** The `required` list the transform writes into a node with a `properties`
      object: the sorted names, or, for a node without names whose old
      `required` holds only `null`s or only numbers and booleans, `[null]` or
      those numbers sorted. Where `SortRaises` holds the value is the name list
      and is never written: the walk raises instead. */
  function RequiredList(m: map<string, Value>): (r: Value)
    requires HasPropsObject(m)
    ensures r.JArr? && Hashable(r.items)
  {
    var others := OtherRequired(m);
    if others == [] || Names(m) != {} then
      NameListHashable(m);
      NameList(m)
    else if JNull in others then JArr([JNull])
    else
      NumberListHashable(others);
      JArr(NumberList(others))
  }

  // ---------------------------------------------------------------------------
  // `sorted(set)` over numbers and booleans, where `True == 1` and `False == 0`
  // and a set keeps the first of equal entries.

  /** The number a boolean or number entry compares as. */
  function NumVal(v: Value): int {
    match v
    case JBool(b) => if b then 1 else 0
    case JNum(n) => n
    case _ => 0
  }

  function NumVals(xs: seq<Value>): set<int> {
    set i | 0 <= i < |xs| :: NumVal(xs[i])
  }

  predicate IsMin(m: int, s: set<int>) {
    m in s && forall x :: x in s ==> m <= x
  }

  lemma MemberOrEmpty(s: set<int>)
    ensures s == {} || exists y :: y in s
  {
    if forall y :: y !in s {
      assert s == {};
    }
  }

  lemma {:induction false} MinExists(s: set<int>)
    requires s != {}
    ensures exists m :: IsMin(m, s)
    decreases |s|
  {
    MemberOrEmpty(s);
    var y :| y in s;
    if s == {y} {
      assert IsMin(y, s);
    } else {
      var t := s - {y};
      MinExists(t);
      var m :| IsMin(m, t);
      var k := if y < m then y else m;
      forall x | x in s ensures k <= x {
        if x != y { assert x in t; }
      }
      assert IsMin(k, s);
    }
  }

  /** `sorted(s)` for a set of integers. */
  function SortInts(s: set<int>): (r: seq<int>)
    ensures |r| == |s|
    ensures forall x :: x in s <==> x in r
    ensures forall i, j :: 0 <= i < j < |r| ==> r[i] < r[j]
    decreases |s|
  {
    if s == {} then []
    else
      MinExists(s);
      var m :| IsMin(m, s);
      var rest := SortInts(s - {m});
      assert forall x :: x in rest ==> m < x;
      [m] + rest
  }

  /** The position of the first entry of `xs` that compares equal to `n`. */
  function FirstIndex(xs: seq<Value>, n: int): (i: nat)
    requires exists i :: 0 <= i < |xs| && NumVal(xs[i]) == n
    ensures i < |xs| && NumVal(xs[i]) == n
    ensures forall k :: 0 <= k < i ==> NumVal(xs[k]) != n
  {
    if NumVal(xs[0]) == n then 0
    else
      var j :| 0 <= j < |xs| && NumVal(xs[j]) == n;
      assert NumVal(xs[1..][j - 1]) == n;
      1 + FirstIndex(xs[1..], n)
  }

  /** Every value in `NumVals(xs)` is the value of some entry. */
  lemma NumValsOf(xs: seq<Value>, n: int)
    requires n in NumVals(xs)
    ensures exists i :: 0 <= i < |xs| && NumVal(xs[i]) == n
  {
  }

  /** `v` is the first entry of `xs` with its value. */
  predicate IsFirst(xs: seq<Value>, v: Value) {
    exists i :: 0 <= i < |xs| && xs[i] == v && forall k :: 0 <= k < i ==> NumVal(xs[k]) != NumVal(v)
  }

  /** Some entry of `r` has the value of `x`. */
  predicate HasValueOf(r: seq<Value>, x: Value) {
    exists j :: 0 <= j < |r| && NumVal(r[j]) == NumVal(x)
  }

  /** For each value of `vs`, the first entry of `xs` with that value. */
  function Firsts(xs: seq<Value>, vs: seq<int>): (r: seq<Value>)
    requires forall j :: 0 <= j < |vs| ==> vs[j] in NumVals(xs)
    ensures |r| == |vs|
    ensures forall j :: 0 <= j < |r| ==> NumVal(r[j]) == vs[j] && IsFirst(xs, r[j])
  {
    if vs == [] then []
    else
      NumValsOf(xs, vs[0]);
      var i := FirstIndex(xs, vs[0]);
      assert IsFirst(xs, xs[i]);
      [xs[i]] + Firsts(xs, vs[1..])
  }

  /** `sorted(set(xs))` for numbers and booleans: one entry per distinct value,
      in ascending order, each the first entry of `xs` with that value. */
  function NumberList(xs: seq<Value>): (r: seq<Value>)
    ensures |r| == |NumVals(xs)|
    ensures forall i, j :: 0 <= i < j < |r| ==> NumVal(r[i]) < NumVal(r[j])
    ensures forall k :: 0 <= k < |xs| ==> HasValueOf(r, xs[k])
    ensures forall j :: 0 <= j < |r| ==> IsFirst(xs, r[j])
  {
    var vs := SortInts(NumVals(xs));
    var r := Firsts(xs, vs);
    forall k | 0 <= k < |xs| ensures HasValueOf(r, xs[k]) {
      assert NumVal(xs[k]) in NumVals(xs);
      var j :| 0 <= j < |vs| && vs[j] == NumVal(xs[k]);
      assert NumVal(r[j]) == vs[j];
    }
    r
  }

  lemma NameListHashable(m: map<string, Value>)
    requires HasPropsObject(m)
    ensures NameList(m).JArr? && Hashable(NameList(m).items)
  {
    var r := NameList(m);
    forall i | 0 <= i < |r.items| ensures !r.items[i].JArr? && !r.items[i].JObj? {
      assert r.items[i] == JStr(SortSet(Names(m))[i]);
    }
  }

  lemma NumberListHashable(xs: seq<Value>)
    requires Hashable(xs)
    ensures Hashable(NumberList(xs))
  {
    var r := NumberList(xs);
    forall j | 0 <= j < |r| ensures !r[j].JArr? && !r[j].JObj? {
      assert IsFirst(xs, r[j]);
    }
  }

  // ---------------------------------------------------------------------------
  // The transform as written.

  /** `_walk` on a node. A dictionary with `$ref` keeps only `$ref` and is not
      descended into. Otherwise every value is walked; the fresh `required` list
      and `false` that the source writes before walking are left unchanged by
      the walk, so they are written after it here. */
  function Walk(v: Value): (r: Value)
    ensures v.JObj? <==> r.JObj?
    ensures v.JArr? <==> r.JArr?
    ensures v.JArr? ==> |r.items| == |v.items|
  {
    match v
    case JArr(xs) => JArr(seq(|xs|, i requires 0 <= i < |xs| => Walk(xs[i])))
    case JObj(m) =>
      if "$ref" in m then Obj1("$ref", m["$ref"])
      else
        var walked := map k | k in m :: Walk(m[k]);
        if HasPropsObject(m) then
          JObj(walked["required" := RequiredList(m)]["additionalProperties" := JBool(false)])
        else JObj(walked)
    case _ => v
  }

  /** The walk reaches a node whose `sorted(all_keys)` raises. A `$ref` node is
      not descended into, and at a node with a `properties` object the old
      `required` and `additionalProperties` values have been replaced before
      the values are walked. */
  predicate WalkRaises(v: Value) {
    match v
    case JArr(xs) => exists i :: 0 <= i < |xs| && WalkRaises(xs[i])
    case JObj(m) =>
      if "$ref" in m then false
      else if HasPropsObject(m) then
        SortRaises(m) || exists k :: k in m && k != "required" && k != "additionalProperties" && WalkRaises(m[k])
      else exists k :: k in m && WalkRaises(m[k])
    case _ => false
  }

  /** `_preprocess_for_openai`: the walked copy of the schema, or the
      `TypeError` that `sorted` raises at some node the walk reaches. */
  function Preprocess(schema: Value): (r: Result<Value>)
    ensures r.Err? <==> WalkRaises(schema)
    ensures r.Ok? ==> r.value == Walk(schema) && RefsAlone(r.value)
  {
    if WalkRaises(schema) then Err("TypeError: '<' not supported between the entries of required")
    else
      WalkRefsAlone(schema);
      Ok(Walk(schema))
  }

  /** Every dictionary reached without passing through a `$ref` value has, if it
      holds `$ref`, no other key. */
  predicate RefsAlone(v: Value) {
    match v
    case JArr(xs) => forall i :: 0 <= i < |xs| ==> RefsAlone(xs[i])
    case JObj(m) => if "$ref" in m then m.Keys == {"$ref"} else forall k :: k in m ==> RefsAlone(m[k])
    case _ => true
  }

  lemma {:induction false} WalkRefsAlone(v: Value)
    ensures RefsAlone(Walk(v))
  {
    match v
    case JArr(xs) =>
      forall i | 0 <= i < |xs| ensures RefsAlone(Walk(v).items[i]) { WalkRefsAlone(xs[i]); }
    case JObj(m) =>
      if "$ref" !in m {
        forall k | k in m ensures RefsAlone(Walk(m[k])) { WalkRefsAlone(m[k]); }
        WalkedNodeRefsAlone(m);
      }
    case _ =>
  }

  /** A node without `$ref` whose walked values satisfy `RefsAlone` does too once walked. */
  lemma WalkedNodeRefsAlone(m: map<string, Value>)
    requires "$ref" !in m
    requires forall k :: k in m ==> RefsAlone(Walk(m[k]))
    ensures RefsAlone(Walk(JObj(m)))
  {
    if HasPropsObject(m) {
      WalkedPropsNodeRefsAlone(m);
    } else {
      var rm := Walk(JObj(m)).fields;
      WalkPlainNodeFields(m);
      forall k | k in rm ensures RefsAlone(rm[k]) {
        assert rm[k] == Walk(m[k]);
      }
    }
  }

  lemma WalkedPropsNodeRefsAlone(m: map<string, Value>)
    requires "$ref" !in m && HasPropsObject(m)
    requires forall k :: k in m ==> RefsAlone(Walk(m[k]))
    ensures RefsAlone(Walk(JObj(m)))
  {
    var walked := map k | k in m :: Walk(m[k]);
    assert ValuesRefsAlone(walked);
    var rl := RequiredList(m);
    ScalarsRefsAlone(rl);
    var rm := walked["required" := rl]["additionalProperties" := JBool(false)];
    UpdateRefsAlone(walked, "required", rl);
    UpdateRefsAlone(walked["required" := rl], "additionalProperties", JBool(false));
    ObjRefsAlone(rm);
    assert Walk(JObj(m)) == JObj(rm);
  }

  predicate ValuesRefsAlone(fields: map<string, Value>) {
    forall k :: k in fields ==> RefsAlone(fields[k])
  }

  lemma UpdateRefsAlone(fields: map<string, Value>, k: string, v: Value)
    requires ValuesRefsAlone(fields) && RefsAlone(v)
    ensures ValuesRefsAlone(fields[k := v])
  {
  }

  lemma ObjRefsAlone(fields: map<string, Value>)
    requires "$ref" !in fields && ValuesRefsAlone(fields)
    ensures RefsAlone(JObj(fields))
  {
  }

  /** A list of scalars has no dictionary in it. */
  lemma ScalarsRefsAlone(v: Value)
    requires v.JArr? && Hashable(v.items)
    ensures RefsAlone(v)
  {
  }

  /** The entries of a walked node with a `properties` object and no `$ref`. */
  lemma WalkPropsNodeFields(m: map<string, Value>)
    requires "$ref" !in m && HasPropsObject(m)
    ensures var rm := Walk(JObj(m)).fields;
      && rm.Keys == m.Keys + {"required", "additionalProperties"}
      && (forall k :: k in m && k != "required" && k != "additionalProperties" ==> rm[k] == Walk(m[k]))
      && rm["required"] == RequiredList(m) && rm["additionalProperties"] == JBool(false)
  {
    WalkedPropsKeys(m);
    WalkedPropsAdded(m);
    WalkedPropsOthers(m);
  }

  lemma WalkedPropsKeys(m: map<string, Value>)
    requires "$ref" !in m && HasPropsObject(m)
    ensures Walk(JObj(m)).fields.Keys == m.Keys + {"required", "additionalProperties"}
  {
  }

  lemma WalkedPropsAdded(m: map<string, Value>)
    requires "$ref" !in m && HasPropsObject(m)
    ensures Walk(JObj(m)).fields["required"] == RequiredList(m)
    ensures Walk(JObj(m)).fields["additionalProperties"] == JBool(false)
  {
  }

  lemma WalkedPropsOthers(m: map<string, Value>)
    requires "$ref" !in m && HasPropsObject(m)
    ensures forall k :: k in m && k != "required" && k != "additionalProperties" ==> Walk(JObj(m)).fields[k] == Walk(m[k])
  {
  }

  /** The entries of a walked node with neither `$ref` nor a `properties` object. */
  lemma WalkPlainNodeFields(m: map<string, Value>)
    requires "$ref" !in m && !HasPropsObject(m)
    ensures var rm := Walk(JObj(m)).fields;
      rm.Keys == m.Keys && forall k :: k in m ==> rm[k] == Walk(m[k])
  {
  }

  /** The `$ref` value itself is kept verbatim, not walked. */
  lemma RefTargetKept(m: map<string, Value>)
    requires "$ref" in m
    ensures Walk(JObj(m)).fields == map["$ref" := m["$ref"]]
  {
  }

  /** `v` is a JSON list of strings in strictly ascending order whose elements are exactly `names`. */
  ghost predicate IsNameList(v: Value, names: set<string>) {
    && v.JArr?
    && (forall i :: 0 <= i < |v.items| ==> v.items[i].JStr?)
    && (forall i, j :: 0 <= i < j < |v.items| ==> Below(v.items[i].s, v.items[j].s))
    && (forall p :: p in names <==> JStr(p) in v.items)
  }

  lemma SortedStrList(names: set<string>)
    ensures IsNameList(StrList(SortSet(names)), names)
  {
    var xs := SortSet(names);
    var v := StrList(xs);
    forall p ensures p in names <==> JStr(p) in v.items {
      if p in names {
        var i :| 0 <= i < |xs| && xs[i] == p;
        assert v.items[i] == JStr(p);
      }
    }
  }

  /** At a node with a `properties` object and no `$ref`: `additionalProperties`
      is `false` and no key but `required` and `additionalProperties` is added or
      removed. `required` is the sorted union of the property names and the
      names already required; an old `required` list holding `null`s, numbers or
      booleans makes `sorted` raise when there is any name, and otherwise is
      written as `[null]` or as its numbers, sorted and de-duplicated. */
  lemma StrictNodeLaw(m: map<string, Value>)
    requires "$ref" !in m && HasPropsObject(m)
    ensures Walk(JObj(m)).fields.Keys == m.Keys + {"required", "additionalProperties"}
    ensures Walk(JObj(m)).fields["additionalProperties"] == JBool(false)
    ensures OtherRequired(m) == [] ==> !SortRaises(m) && IsNameList(Walk(JObj(m)).fields["required"], Names(m))
    ensures OtherRequired(m) != [] && Names(m) != {} ==> SortRaises(m) && WalkRaises(JObj(m))
    ensures OtherRequired(m) != [] && !SortRaises(m) ==>
      && Names(m) == {}
      && (JNull in OtherRequired(m) ==> Walk(JObj(m)).fields["required"] == JArr([JNull]))
      && (JNull !in OtherRequired(m) ==> Walk(JObj(m)).fields["required"] == JArr(NumberList(OtherRequired(m))))
  {
    SortedStrList(Names(m));
  }

  /** A node without `$ref` and without a `properties` object keeps exactly its keys. */
  lemma PlainNodeKeys(m: map<string, Value>)
    requires "$ref" !in m && !HasPropsObject(m)
    ensures Walk(JObj(m)).fields.Keys == m.Keys
  {
  }

  // ---------------------------------------------------------------------------
  // The corrected transform. `Walk` visits the `properties` dictionary itself as
  // a schema node, so a property named `properties` whose schema is an object
  // makes that dictionary gain `required` and `additionalProperties` entries
  // (two phantom properties), and a property named `$ref` erases its siblings.
  // `Tighten` visits each property's schema instead.

  /** A JSON list of strings in strictly ascending order. */
  predicate SortedStrings(v: Value) {
    && v.JArr?
    && (forall i :: 0 <= i < |v.items| ==> v.items[i].JStr?)
    && (forall i, j :: 0 <= i < j < |v.items| ==> Below(v.items[i].s, v.items[j].s))
  }

  /** The shape the Responses API's strict mode asks of a schema: `$ref` nodes
      stand alone, and a node with a `properties` object lists every property
      in a sorted `required` list and forbids additional properties. */
  ghost predicate Strict(v: Value) {
    match v
    case JArr(xs) => forall i :: 0 <= i < |xs| ==> Strict(xs[i])
    case JObj(m) =>
      if "$ref" in m then m.Keys == {"$ref"}
      else if HasPropsObject(m) then
        && (forall p :: p in m["properties"].fields ==> Strict(m["properties"].fields[p]))
        && (forall k :: k in m && k != "properties" ==> Strict(m[k]))
        && "required" in m && SortedStrings(m["required"])
        && m["properties"].fields.Keys <= RequiredSet(m)
        && "additionalProperties" in m && m["additionalProperties"] == JBool(false)
      else forall k :: k in m ==> Strict(m[k])
    case _ => true
  }

  function Tighten(v: Value): (r: Value)
    ensures v.JObj? <==> r.JObj?
    decreases v, 2
  {
    match v
    case JArr(xs) => JArr(seq(|xs|, i requires 0 <= i < |xs| => Tighten(xs[i])))
    case JObj(m) => if "$ref" in m then Obj1("$ref", m["$ref"]) else JObj(TightenFields(m))
    case _ => v
  }

  /** Every value of a dictionary, tightened. */
  function TightenEach(m: map<string, Value>): (r: map<string, Value>)
    ensures r.Keys == m.Keys
    decreases JObj(m), 0
  {
    map k | k in m :: Tighten(m[k])
  }

  /** The fields of a node without `$ref`: at a node with a `properties` object,
      each property schema is tightened (the property dictionary keeps its keys)
      and `required` and `additionalProperties` are written. */
  function TightenFields(m: map<string, Value>): (r: map<string, Value>)
    requires "$ref" !in m
    decreases JObj(m), 1
  {
    if HasPropsObject(m) then
      TightenEach(m)["properties" := JObj(TightenEach(m["properties"].fields))]
        ["required" := NameList(m)]["additionalProperties" := JBool(false)]
    else TightenEach(m)
  }

  lemma TightenFieldsShape(m: map<string, Value>)
    requires "$ref" !in m
    ensures HasPropsObject(m) ==> TightenFields(m).Keys == m.Keys + {"required", "additionalProperties"}
    ensures !HasPropsObject(m) ==> TightenFields(m).Keys == m.Keys
    ensures forall k :: k in m && k != "properties" && k != "required" && k != "additionalProperties" ==>
      TightenFields(m)[k] == Tighten(m[k])
    ensures !HasPropsObject(m) ==> forall k :: k in m ==> TightenFields(m)[k] == Tighten(m[k])
  {
  }

  /** The strings of a sorted string list. */
  function Strings(v: Value): (r: seq<string>)
    requires SortedStrings(v)
    ensures StrictlySorted(r) && StrList(r) == v
  {
    seq(|v.items|, i requires 0 <= i < |v.items| => v.items[i].s)
  }

  lemma SortedRequired(m: map<string, Value>)
    requires "required" in m && SortedStrings(m["required"])
    ensures RequiredSet(m) == set x | x in Strings(m["required"])
  {
    var xs := Strings(m["required"]);
    if xs != [] {
      assert m["required"].items[0] == JStr(xs[0]);
    }
  }

  /** The `required` list written at a node lists the node's properties, sorted. */
  lemma NameListCovers(m: map<string, Value>)
    requires HasPropsObject(m)
    ensures SortedStrings(NameList(m))
    ensures var r := m["required" := NameList(m)];
      RequiredSet(r) == m["properties"].fields.Keys + RequiredSet(m)
  {
    var names := m["properties"].fields.Keys + RequiredSet(m);
    var sorted := SortSet(names);
    var r := m["required" := NameList(m)];
    SortedRequired(r);
    assert Strings(r["required"]) == sorted;
  }

  /** The `required` list written at a node is sorted and names every property. */
  lemma TightenedRequired(m: map<string, Value>)
    requires "$ref" !in m && HasPropsObject(m)
    ensures var r := TightenFields(m);
      "required" in r && SortedStrings(r["required"]) && m["properties"].fields.Keys <= RequiredSet(r)
  {
    var r := TightenFields(m);
    PropsNodeFields(m);
    NameListCovers(m);
    var req := m["required" := NameList(m)];
    RequiredSetOf(r, req);
  }

  /** `RequiredSet` reads only the `required` entry. */
  lemma RequiredSetOf(a: map<string, Value>, b: map<string, Value>)
    requires "required" in a && "required" in b && a["required"] == b["required"]
    ensures RequiredSet(a) == RequiredSet(b)
  {
  }

  lemma TightenPropsNode(m: map<string, Value>)
    requires "$ref" !in m && HasPropsObject(m)
    requires forall p :: p in m["properties"].fields ==> Strict(Tighten(m["properties"].fields[p]))
    requires forall k :: k in m && k != "properties" ==> Strict(Tighten(m[k]))
    ensures Strict(Tighten(JObj(m)))
  {
    var r := TightenFields(m);
    PropsNodeFields(m);
    EachStrict(m["properties"].fields);
    OtherFieldsStrict(m);
    TightenedRequired(m);
    StrictNodeFrom(r);
    assert Tighten(JObj(m)) == JObj(r);
  }

  lemma EachStrict(props: map<string, Value>)
    requires forall p :: p in props ==> Strict(Tighten(props[p]))
    ensures forall p :: p in TightenEach(props) ==> Strict(TightenEach(props)[p])
  {
  }

  lemma OtherFieldsStrict(m: map<string, Value>)
    requires "$ref" !in m && HasPropsObject(m)
    requires forall k :: k in m && k != "properties" ==> Strict(Tighten(m[k]))
    ensures forall k :: k in TightenFields(m) && k != "properties" ==> Strict(TightenFields(m)[k])
  {
    var r := TightenFields(m);
    TightenFieldsShape(m);
    PropsNodeFields(m);
    forall k | k in r && k != "properties" ensures Strict(r[k]) {
      if k != "required" && k != "additionalProperties" {
        assert r[k] == Tighten(m[k]);
      }
    }
  }

  lemma StrictNodeFrom(r: map<string, Value>)
    requires "$ref" !in r && HasPropsObject(r)
    requires forall p :: p in r["properties"].fields ==> Strict(r["properties"].fields[p])
    requires forall k :: k in r && k != "properties" ==> Strict(r[k])
    requires "required" in r && SortedStrings(r["required"]) && r["properties"].fields.Keys <= RequiredSet(r)
    requires "additionalProperties" in r && r["additionalProperties"] == JBool(false)
    ensures Strict(JObj(r))
  {
  }

  lemma {:induction false} TightenStrict(v: Value)
    ensures Strict(Tighten(v))
  {
    match v
    case JArr(xs) =>
      forall i | 0 <= i < |xs| ensures Strict(Tighten(v).items[i]) { TightenStrict(xs[i]); }
    case JObj(m) =>
      if "$ref" !in m {
        if HasPropsObject(m) {
          var props := m["properties"].fields;
          forall p | p in props ensures Strict(Tighten(props[p])) { TightenStrict(props[p]); }
          forall k | k in m && k != "properties" ensures Strict(Tighten(m[k])) { TightenStrict(m[k]); }
          TightenPropsNode(m);
        } else {
          var r := TightenFields(m);
          TightenFieldsShape(m);
          forall k | k in r ensures Strict(r[k]) { TightenStrict(m[k]); }
          assert !HasPropsObject(r);
        }
      }
    case _ =>
  }

  /** A strict node's `required` list is already the sorted union the transform writes. */
  lemma StrictRequiredFixed(m: map<string, Value>)
    requires "$ref" !in m && HasPropsObject(m) && Strict(JObj(m))
    ensures NameList(m) == m["required"]
  {
    var props := m["properties"].fields;
    SortedRequired(m);
    var xs := Strings(m["required"]);
    assert props.Keys + RequiredSet(m) == set x | x in xs;
    SortedUnique(SortSet(props.Keys + RequiredSet(m)), xs);
  }

  lemma FixedPropsNode(m: map<string, Value>)
    requires "$ref" !in m && HasPropsObject(m)
    requires "required" in m && NameList(m) == m["required"]
    requires "additionalProperties" in m && m["additionalProperties"] == JBool(false)
    requires forall p :: p in m["properties"].fields ==> Tighten(m["properties"].fields[p]) == m["properties"].fields[p]
    requires forall k :: k in m && k != "properties" ==> Tighten(m[k]) == m[k]
    ensures Tighten(JObj(m)) == JObj(m)
  {
    var props := m["properties"].fields;
    TightenEachFixed(props);
    EachFixedBut(m, JObj(props));
    var m1 := m["properties" := JObj(props)];
    assert m1 == m;
    assert TightenFields(m) == m1["required" := m["required"]]["additionalProperties" := m["additionalProperties"]];
    assert m1["required" := m["required"]] == m;
  }

  /** Tightening each value changes nothing where every value but `properties` is fixed. */
  lemma EachFixedBut(m: map<string, Value>, x: Value)
    requires forall k :: k in m && k != "properties" ==> Tighten(m[k]) == m[k]
    ensures TightenEach(m)["properties" := x] == m["properties" := x]
  {
  }

  lemma TightenEachFixed(m: map<string, Value>)
    requires forall k :: k in m ==> Tighten(m[k]) == m[k]
    ensures TightenEach(m) == m
  {
  }

  /** The three entries the corrected node step writes at a node with properties. */
  lemma PropsNodeFields(m: map<string, Value>)
    requires "$ref" !in m && HasPropsObject(m)
    ensures TightenFields(m)["properties"] == JObj(TightenEach(m["properties"].fields))
    ensures TightenFields(m)["required"] == NameList(m)
    ensures TightenFields(m)["additionalProperties"] == JBool(false)
  {
  }

  lemma {:induction false} StrictFixed(v: Value)
    requires Strict(v)
    ensures Tighten(v) == v
  {
    match v
    case JArr(xs) =>
      forall i | 0 <= i < |xs| ensures Tighten(xs[i]) == xs[i] { StrictFixed(xs[i]); }
    case JObj(m) =>
      if "$ref" in m {
        assert Tighten(v).fields == m;
      } else if HasPropsObject(m) {
        var props := m["properties"].fields;
        forall p | p in props ensures Tighten(props[p]) == props[p] { StrictFixed(props[p]); }
        forall k | k in m && k != "properties" ensures Tighten(m[k]) == m[k] { StrictFixed(m[k]); }
        StrictRequiredFixed(m);
        FixedPropsNode(m);
      } else {
        forall k | k in m ensures Tighten(m[k]) == m[k] { StrictFixed(m[k]); }
        TightenFieldsShape(m);
        assert TightenFields(m) == m;
      }
    case _ =>
  }

  /** Applying the corrected transform twice is the same as applying it once. */
  lemma TightenIdempotent(v: Value)
    ensures Tighten(Tighten(v)) == Tighten(v)
  {
    TightenStrict(v);
    StrictFixed(Tighten(v));
  }

  /** The transform as written is not idempotent, and its output is not strict:
      for the schema of an object with one object-typed property named
      `properties`, the walk adds `required` and `additionalProperties` to the
      property dictionary, which the parent's `required` does not list. */
  lemma WalkNotIdempotent()
    ensures var x := Obj1("properties", Obj1("properties", JObj(map[])));
      Walk(Walk(x)) != Walk(x) && !Strict(Walk(x))
  {
    var inner := Obj1("properties", JObj(map[]));
    var x := Obj1("properties", inner);
    NestedPropertiesBreakWalk(x, inner);
  }

  /** The same, for any object whose only property `properties` is an object
      whose only key is `properties`, holding an object. */
  lemma NestedPropertiesBreakWalk(x: Value, inner: Value)
    requires inner.JObj? && inner.fields.Keys == {"properties"} && inner.fields["properties"].JObj?
    requires x.JObj? && x.fields.Keys == {"properties"} && x.fields["properties"] == inner
    ensures Walk(Walk(x)) != Walk(x) && !Strict(Walk(x))
  {
    WalkedNested(x, inner);
    PhantomRequiredNotFixed(Walk(x));
    PhantomRequiredNotStrict(Walk(x));
  }

  /** After the walk, the property dictionary has gained `required`, and the
      node's own `required` names only `properties`. */
  lemma WalkedNested(x: Value, inner: Value)
    requires inner.JObj? && inner.fields.Keys == {"properties"} && inner.fields["properties"].JObj?
    requires x.JObj? && x.fields.Keys == {"properties"} && x.fields["properties"] == inner
    ensures var w := Walk(x);
      && w.JObj? && "$ref" !in w.fields && HasPropsObject(w.fields)
      && "required" in w.fields["properties"].fields
      && "required" in w.fields && w.fields["required"] == JArr([JStr("properties")])
  {
    WalkOneProperty(inner);
    WalkOneProperty(x);
    SortSingleton("properties");
    assert StrList(["properties"]) == JArr([JStr("properties")]);
  }

  lemma PhantomRequiredNotFixed(w: Value)
    requires w.JObj? && "$ref" !in w.fields && HasPropsObject(w.fields)
    requires "required" in w.fields["properties"].fields
    requires "required" in w.fields && w.fields["required"] == JArr([JStr("properties")])
    ensures Walk(w) != w
  {
    RequiredOfOne(w.fields, "properties");
    StrictNodeLaw(w.fields);
    assert JStr("required") in Walk(w).fields["required"].items;
    assert JStr("required") !in w.fields["required"].items;
  }

  lemma PhantomRequiredNotStrict(w: Value)
    requires w.JObj? && "$ref" !in w.fields && HasPropsObject(w.fields)
    requires "required" in w.fields["properties"].fields
    requires "required" in w.fields && w.fields["required"] == JArr([JStr("properties")])
    ensures !Strict(w)
  {
    RequiredOfOne(w.fields, "properties");
    assert "required" !in RequiredSet(w.fields);
  }

  /** The walk of a node whose only key is `properties`, holding an object. */
  lemma WalkOneProperty(v: Value)
    requires v.JObj? && v.fields.Keys == {"properties"} && v.fields["properties"].JObj?
    ensures Walk(v).fields.Keys == {"properties", "required", "additionalProperties"}
    ensures Walk(v).fields["properties"] == Walk(v.fields["properties"])
    ensures Walk(v).fields["required"] == StrList(SortSet(v.fields["properties"].fields.Keys))
  {
    var m := v.fields;
    assert "required" !in m;
    assert RequiredSet(m) == {};
    assert m["properties"].fields.Keys + RequiredSet(m) == m["properties"].fields.Keys;
  }

  lemma SortSingleton(a: string)
    ensures SortSet({a}) == [a]
  {
    var r := SortSet({a});
    assert r[0] in {a};
  }

  lemma RequiredOfOne(m: map<string, Value>, a: string)
    requires "required" in m && m["required"] == JArr([JStr(a)])
    ensures RequiredSet(m) == {a} && OtherRequired(m) == []
  {
    assert NonStrings([JStr(a)]) == [] by { assert [JStr(a)][..0] == []; }
    var xs := [JStr(a)];
    assert forall i :: 0 <= i < |xs| ==> xs[i] == JStr(a);
    var s := set i | 0 <= i < |xs| && xs[i].JStr? :: xs[i].s;
    assert a in s by { assert xs[0].s == a; }
    assert s == {a};
  }

  // ---------------------------------------------------------------------------
  // Non-name entries of an old `required` list.

  /** `{"properties": {"a": {}}, "required": [1]}`: `sorted` compares `"a"` with
      `1`, so the whole preprocessing raises. */
  lemma MixedRequiredRaises()
    ensures Preprocess(JObj(map["properties" := Obj1("a", JObj(map[])), "required" := JArr([JNum(1)])])).Err?
  {
    var m := map["properties" := Obj1("a", JObj(map[])), "required" := JArr([JNum(1)])];
    assert "a" in m["properties"].fields;
    NameAndNumberRaise(m, 1);
  }

  lemma NameAndNumberRaise(m: map<string, Value>, n: int)
    requires "$ref" !in m && HasPropsObject(m) && m["properties"].fields != map[]
    requires "required" in m && m["required"] == JArr([JNum(n)])
    ensures WalkRaises(JObj(m))
  {
    assert NonStrings([JNum(n)]) == [JNum(n)] by { assert [JNum(n)][..0] == []; }
    var p :| p in m["properties"].fields;
    assert p in Names(m);
  }

  /** `{"properties": {}, "required": [1]}`: with no name to compare against,
      the number is kept as the whole `required` list. */
  lemma NumberRequiredKept()
    ensures var m := map["properties" := JObj(map[]), "required" := JArr([JNum(1)])];
      Preprocess(JObj(m)).Ok? && Walk(JObj(m)).fields["required"] == JArr([JNum(1)])
  {
    var m := map["properties" := JObj(map[]), "required" := JArr([JNum(1)])];
    assert m.Keys == {"properties", "required"};
    LoneNumberKept(m, 1);
  }

  lemma LoneNumberKept(m: map<string, Value>, n: int)
    requires m.Keys == {"properties", "required"} && m["properties"] == JObj(map[])
    requires m["required"] == JArr([JNum(n)])
    ensures !WalkRaises(JObj(m)) && Walk(JObj(m)).fields["required"] == JArr([JNum(n)])
  {
    assert NonStrings([JNum(n)]) == [JNum(n)] by { assert [JNum(n)][..0] == []; }
    assert OtherRequired(m) == [JNum(n)];
    assert RequiredSet(m) == {};
    assert Names(m) == {};
    assert !SortRaises(m);
    SingleNumberList(n);
    StrictNodeLaw(m);
    EmptyNoRaise(m);
  }

  lemma SingleNumberList(n: int)
    ensures NumberList([JNum(n)]) == [JNum(n)]
  {
    var xs := [JNum(n)];
    assert NumVal(xs[0]) == n;
    assert NumVals(xs) == {n};
    var r := NumberList(xs);
    assert |r| == 1;
    assert IsFirst(xs, r[0]);
  }

  lemma EmptyNoRaise(m: map<string, Value>)
    requires m.Keys == {"properties", "required"} && m["properties"] == JObj(map[])
    requires HasPropsObject(m) && !SortRaises(m)
    ensures !WalkRaises(JObj(m))
  {
    assert !WalkRaises(m["properties"]);
    assert forall k :: k in m && k != "required" && k != "additionalProperties" ==> k == "properties";
  }
}

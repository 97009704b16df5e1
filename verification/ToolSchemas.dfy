/** The tool-argument validator, and what it means for arguments to satisfy a schema. */
module ToolSchemas {
  import opened Outcomes
  import opened JsonValues

  /** The names every object inherits. The tools' schemas use none of them, their callers' arguments may. */
  const INHERITED: set<string> := {
    "constructor", "__defineGetter__", "__defineSetter__", "hasOwnProperty", "__lookupGetter__", "__lookupSetter__",
    "isPrototypeOf", "propertyIsEnumerable", "toString", "valueOf", "__proto__", "toLocaleString" }

  type PropertyName = name: string | name !in INHERITED witness "target_id"

  datatype Schema = Schema(
    constant: Option<Json>, choices: Option<seq<Json>>, oneOf: Candidates, types: Option<seq<string>>,
    minimum: Option<real>, maximum: Option<real>,
    minItems: Option<int>, uniqueItems: bool, items: Option<Schema>,
    properties: seq<Property>, required: seq<PropertyName>, closed: bool)

  datatype Candidates = Unlisted | Listed(schemas: seq<Schema>)

  datatype Property = Property(name: PropertyName, schema: Schema)

  datatype Keyword = Const | Enum | OneOf | Type | Minimum | Maximum | MinItems | UniqueItems | Required | AdditionalProperties

  // ---- the validator ----

  /** Identity as the program tests it: two containers are never identical. */
  predicate Identical(a: Json, b: Json) {
    IsScalar(a) && a == b
  }

  predicate ValueHasType(v: Json, name: string) {
    match v
    case Null => name == "null"
    case Bool(_) => name == "boolean"
    case Num(n) => name == "number" || (name == "integer" && n == n.Floor as real)
    case Str(_) => name == "string"
    case Arr(_) => name == "array"
    case Obj(_) => name == "object"
  }

  predicate IsProperty(properties: seq<Property>, key: string) {
    exists i :: 0 <= i < |properties| && properties[i].name == key
  }

  /** The key in the sense of JavaScript's `in`: declared, or inherited by every object. */
  predicate Recognised(properties: seq<Property>, key: string) {
    IsProperty(properties, key) || key in INHERITED
  }

  function FirstExtra(properties: seq<Property>, fields: seq<(string, Json)>): Option<string> {
    if fields == [] then None
    else if !Recognised(properties, fields[0].0) then Some(fields[0].0)
    else FirstExtra(properties, fields[1..])
  }

  function SchemaError(s: Schema, v: Json): Option<Keyword>
    decreases s, 3
  {
    if s.constant.Some? && !Identical(v, s.constant.value) then Some(Const)
    else if s.choices.Some? && !(exists c :: c in s.choices.value && Identical(c, v)) then Some(Enum)
    else if s.oneOf.Listed? then (if Matches(s.oneOf.schemas, v) == 1 then None else Some(OneOf))
    else if s.types.Some? && !(exists t :: t in s.types.value && ValueHasType(v, t)) then Some(Type)
    else match v
      case Num(n) => NumberError(s, n)
      case Arr(vs) => ArrayError(s, vs)
      case Obj(fields) => ObjectError(s, fields)
      case _ => None
  }

  function NumberError(s: Schema, n: real): Option<Keyword> {
    if s.minimum.Some? && n < s.minimum.value then Some(Minimum)
    else if s.maximum.Some? && n > s.maximum.value then Some(Maximum)
    else None
  }

  function ArrayError(s: Schema, vs: seq<Json>): Option<Keyword>
    decreases s, 2
  {
    if s.minItems.Some? && |vs| < s.minItems.value then Some(MinItems)
    else if s.uniqueItems && |set x | x in vs| != |vs| then Some(UniqueItems)
    else if s.items.Some? then ItemsError(s.items.value, vs)
    else None
  }

  function ObjectError(s: Schema, fields: seq<(string, Json)>): Option<Keyword>
    decreases s, 2
  {
    if !(forall key :: key in s.required ==> HasKey(fields, key)) then Some(Required)
    else if s.closed && FirstExtra(s.properties, fields).Some? && FirstExtra(s.properties, fields).value != "" then Some(AdditionalProperties)
    else PropertiesError(s.properties, fields)
  }

  function Matches(candidates: seq<Schema>, v: Json): nat
    decreases candidates, 0
  {
    if candidates == [] then 0
    else (if SchemaError(candidates[0], v) == None then 1 else 0) + Matches(candidates[1..], v)
  }

  function ItemsError(s: Schema, vs: seq<Json>): Option<Keyword>
    decreases s, 4 + |vs|
  {
    if vs == [] then None
    else
      var error := SchemaError(s, vs[0]);
      if error.Some? then error else ItemsError(s, vs[1..])
  }

  function PropertiesError(properties: seq<Property>, fields: seq<(string, Json)>): Option<Keyword>
    decreases properties, 0
  {
    if properties == [] then None
    else
      var at := IndexOf(fields, properties[0].name);
      var error := if at == |fields| then None else SchemaError(properties[0].schema, fields[at].1);
      if error.Some? then error else PropertiesError(properties[1..], fields)
  }

  // ---- what a schema means ----

  /** `ByValue` is the JSON Schema draft's own reading. `AsCoded` is the program's: containers are never equal to a
      constant, items are told apart by their text (so by field order), a closed object's keys are read with `in`, and
      listed candidates decide alone. */
  datatype Reading = ByValue | AsCoded

  /** Equal JSON values: the order of an object's fields does not matter. */
  ghost predicate SameValue(a: Json, b: Json)
    decreases a
  {
    match (a, b)
    case (Arr(xs), Arr(ys)) => |xs| == |ys| && forall i :: 0 <= i < |xs| ==> SameValue(xs[i], ys[i])
    case (Obj(f), Obj(g)) =>
      |f| == |g| && forall i :: 0 <= i < |f| ==>
        IndexOf(g, f[i].0) < |g| && SameValue(f[i].1, g[IndexOf(g, f[i].0)].1)
    case _ => a == b
  }

  ghost predicate EqualsConstant(reading: Reading, constant: Json, v: Json) {
    if reading.ByValue? then SameValue(constant, v) else Identical(constant, v)
  }

  ghost predicate Repeats(reading: Reading, a: Json, b: Json) {
    if reading.ByValue? then SameValue(a, b) else a == b
  }

  ghost predicate IsExtra(s: Schema, fields: seq<(string, Json)>, i: nat)
    requires i < |fields|
  {
    !Recognised(s.properties, fields[i].0)
  }

  /** What a closed object allows. By value: declared keys only. As coded: also inherited names, and anything at all
      once the first key that is neither declared nor inherited is the empty one. */
  ghost predicate KeysAllowed(reading: Reading, s: Schema, fields: seq<(string, Json)>) {
    if reading.ByValue? then forall i :: 0 <= i < |fields| ==> IsProperty(s.properties, fields[i].0)
    else (forall i :: 0 <= i < |fields| ==> !IsExtra(s, fields, i))
         || (exists j :: 0 <= j < |fields| && fields[j].0 == "" && IsExtra(s, fields, j) && forall h :: 0 <= h < j ==> !IsExtra(s, fields, h))
  }

  ghost predicate OneTrue(verdicts: seq<bool>) {
    exists i :: 0 <= i < |verdicts| && OnlyTrue(verdicts, i)
  }

  predicate OnlyTrue(verdicts: seq<bool>, i: nat)
    requires i < |verdicts|
  {
    verdicts[i] && forall j :: 0 <= j < |verdicts| && j != i ==> !verdicts[j]
  }

  ghost function Verdicts(reading: Reading, candidates: seq<Schema>, v: Json): seq<bool>
    decreases candidates, 0
  {
    seq(|candidates|, i requires 0 <= i < |candidates| => Valid(reading, candidates[i], v))
  }

  /** `const`, `enum` and `oneOf` (sections 6.1 of the validation and 10.2.1.3 of the core specification). When a schema
      lists candidates, exactly one of them must hold; the draft also asks for the keywords beside them, the program does
      not look at those. */
  ghost predicate Valid(reading: Reading, s: Schema, v: Json)
    decreases s, 3
  {
    && (s.constant.Some? ==> EqualsConstant(reading, s.constant.value, v))
    && (s.choices.Some? ==> exists i :: 0 <= i < |s.choices.value| && EqualsConstant(reading, s.choices.value[i], v))
    && (s.oneOf.Listed? ==> OneTrue(Verdicts(reading, s.oneOf.schemas, v)))
    && (s.oneOf.Unlisted? || reading.ByValue? ==> Assertions(reading, s, v))
  }

  /** Every other keyword, each on the kind of value it speaks about. */
  ghost predicate Assertions(reading: Reading, s: Schema, v: Json)
    decreases s, 2
  {
    && (s.types.Some? ==> exists i :: 0 <= i < |s.types.value| && ValueHasType(v, s.types.value[i]))
    && (v.Num? ==> NumberAllowed(s, v.number))
    && (v.Arr? ==> ArrayAllowed(reading, s, v.items))
    && (v.Obj? ==> ObjectAllowed(reading, s, v.fields))
  }

  ghost predicate NumberAllowed(s: Schema, n: real) {
    (s.minimum.Some? ==> s.minimum.value <= n) && (s.maximum.Some? ==> n <= s.maximum.value)
  }

  ghost predicate ArrayAllowed(reading: Reading, s: Schema, vs: seq<Json>)
    decreases s, 1
  {
    && (s.minItems.Some? ==> s.minItems.value <= |vs|)
    && (s.uniqueItems ==> forall i, j :: 0 <= i < j < |vs| ==> !Repeats(reading, vs[i], vs[j]))
    && (s.items.Some? ==> forall k :: 0 <= k < |vs| ==> Valid(reading, s.items.value, vs[k]))
  }

  ghost predicate ObjectAllowed(reading: Reading, s: Schema, fields: seq<(string, Json)>)
    decreases s, 1
  {
    && (forall key :: key in s.required ==> HasKey(fields, key))
    && (s.closed ==> KeysAllowed(reading, s, fields))
    && PropertiesAllowed(reading, s.properties, fields)
  }

  ghost predicate PropertiesAllowed(reading: Reading, properties: seq<Property>, fields: seq<(string, Json)>)
    decreases properties, 0
  {
    forall i :: 0 <= i < |properties| && IndexOf(fields, properties[i].name) < |fields| ==>
      Valid(reading, properties[i].schema, fields[IndexOf(fields, properties[i].name)].1)
  }

  // ---- the validator is exact ----

  ghost predicate AllDistinct(vs: seq<Json>) {
    forall i, j :: 0 <= i < j < |vs| ==> vs[i] != vs[j]
  }

  lemma DistinctTail(vs: seq<Json>)
    requires vs != []
    ensures AllDistinct(vs) <==> vs[0] !in vs[1..] && AllDistinct(vs[1..])
  {
    var rest := vs[1..];
    if AllDistinct(vs) {
      assert forall j :: 0 <= j < |rest| ==> rest[j] == vs[j + 1];
    } else {
      var i, j :| 0 <= i < j < |vs| && vs[i] == vs[j];
      assert vs[j] == rest[j - 1];
      if i > 0 { assert vs[i] == rest[i - 1]; }
    }
  }

  lemma {:induction false} DistinctBySize(vs: seq<Json>)
    ensures |set x | x in vs| == |vs| <==> AllDistinct(vs)
    ensures |set x | x in vs| <= |vs|
  {
    if vs != [] {
      var rest := vs[1..];
      DistinctBySize(rest);
      DistinctTail(vs);
      var all, tail := set x | x in vs, set x | x in rest;
      assert all == {vs[0]} + tail;
      assert vs[0] in tail ==> all == tail;
      assert |all| == if vs[0] in tail then |tail| else 1 + |tail|;
    }
  }

  lemma {:induction false} FirstExtraIsFirst(s: Schema, fields: seq<(string, Json)>)
    ensures var extra := FirstExtra(s.properties, fields);
            if extra.Some?
            then exists j :: 0 <= j < |fields| && fields[j].0 == extra.value && IsExtra(s, fields, j) && forall h :: 0 <= h < j ==> !IsExtra(s, fields, h)
            else forall i :: 0 <= i < |fields| ==> !IsExtra(s, fields, i)
  {
    if fields != [] {
      var rest := fields[1..];
      FirstExtraIsFirst(s, rest);
      assert forall i :: 0 <= i < |rest| ==> (IsExtra(s, rest, i) <==> IsExtra(s, fields, i + 1));
      if Recognised(s.properties, fields[0].0) {
        var extra := FirstExtra(s.properties, fields);
        if extra.Some? {
          var j :| 0 <= j < |rest| && rest[j].0 == extra.value && IsExtra(s, rest, j) && forall h :: 0 <= h < j ==> !IsExtra(s, rest, h);
          assert forall h :: 0 <= h < j + 1 ==> !IsExtra(s, fields, h) by {
            forall h | 0 <= h < j + 1 ensures !IsExtra(s, fields, h) { if h > 0 { assert !IsExtra(s, rest, h - 1); } }
          }
          assert fields[j + 1].0 == extra.value && IsExtra(s, fields, j + 1);
        } else {
          forall i | 0 <= i < |fields| ensures !IsExtra(s, fields, i) { if i > 0 { assert !IsExtra(s, rest, i - 1); } }
        }
      } else {
        assert fields[0].0 == FirstExtra(s.properties, fields).value && IsExtra(s, fields, 0);
      }
    }
  }

  lemma ClosedCheck(s: Schema, fields: seq<(string, Json)>)
    ensures KeysAllowed(AsCoded, s, fields) <==>
            FirstExtra(s.properties, fields).None? || FirstExtra(s.properties, fields).value == ""
  {
    hide Recognised, IsExtra;
    FirstExtraIsFirst(s, fields);
    var extra := FirstExtra(s.properties, fields);
    if extra.Some? {
      var j :| 0 <= j < |fields| && fields[j].0 == extra.value && IsExtra(s, fields, j) && forall h :: 0 <= h < j ==> !IsExtra(s, fields, h);
      assert forall m :: 0 <= m < |fields| && IsExtra(s, fields, m) && (forall h :: 0 <= h < m ==> !IsExtra(s, fields, h)) ==> m == j;
    }
  }

  function CountTrue(verdicts: seq<bool>): nat {
    if verdicts == [] then 0 else (if verdicts[0] then 1 else 0) + CountTrue(verdicts[1..])
  }

  lemma {:induction false} NoneTrueByCount(verdicts: seq<bool>)
    ensures CountTrue(verdicts) == 0 <==> forall i :: 0 <= i < |verdicts| ==> !verdicts[i]
  {
    if verdicts != [] {
      var rest := verdicts[1..];
      NoneTrueByCount(rest);
      assert forall i :: 0 <= i < |rest| ==> rest[i] == verdicts[i + 1];
      assert (forall i :: 0 <= i < |rest| ==> !rest[i]) ==> forall i :: 0 < i < |verdicts| ==> verdicts[i] == rest[i - 1];
    }
  }

  lemma {:induction false} OneTrueByCount(verdicts: seq<bool>)
    ensures CountTrue(verdicts) == 1 <==> OneTrue(verdicts)
  {
    if verdicts != [] {
      var rest := verdicts[1..];
      OneTrueByCount(rest);
      NoneTrueByCount(rest);
      OneTrueByFirst(verdicts);
      hide OneTrue;
    }
  }

  lemma OneTrueByFirst(verdicts: seq<bool>)
    requires verdicts != []
    ensures OneTrue(verdicts) <==>
              if verdicts[0] then forall i :: 0 <= i < |verdicts[1..]| ==> !verdicts[1..][i] else OneTrue(verdicts[1..])
  {
    var rest := verdicts[1..];
    OnlyFirstTrue(verdicts);
    forall i | 0 <= i < |rest| ensures OnlyTrue(verdicts, i + 1) <==> !verdicts[0] && OnlyTrue(rest, i) { OnlyLaterTrue(verdicts, i); }
    hide OnlyTrue;
    if OneTrue(verdicts) {
      var i :| 0 <= i < |verdicts| && OnlyTrue(verdicts, i);
      if i > 0 { assert OnlyTrue(rest, i - 1); }
    }
  }

  lemma OnlyFirstTrue(verdicts: seq<bool>)
    requires verdicts != []
    ensures OnlyTrue(verdicts, 0) <==> verdicts[0] && forall i :: 0 <= i < |verdicts[1..]| ==> !verdicts[1..][i]
    ensures verdicts[0] ==> forall i :: 0 < i < |verdicts| ==> !OnlyTrue(verdicts, i)
  {
    var rest := verdicts[1..];
    if forall i :: 0 <= i < |rest| ==> !rest[i] {
      forall i | 0 < i < |verdicts| ensures !verdicts[i] { assert !rest[i - 1]; }
    }
  }

  lemma OnlyLaterTrue(verdicts: seq<bool>, i: nat)
    requires i + 1 < |verdicts|
    ensures OnlyTrue(verdicts, i + 1) <==> !verdicts[0] && OnlyTrue(verdicts[1..], i)
  {
    var rest := verdicts[1..];
    if !verdicts[0] && OnlyTrue(rest, i) {
      forall j | 0 <= j < |verdicts| && j != i + 1 ensures !verdicts[j] { if j > 0 { assert !rest[j - 1]; } }
    }
  }

  /** The validator reports no error exactly when the value satisfies the schema as the program reads it. */
  lemma {:induction false} SchemaErrorExact(s: Schema, v: Json)
    ensures SchemaError(s, v) == None <==> Valid(AsCoded, s, v)
    decreases s, 3
  {
    hide OneTrue, Verdicts, Matches, NumberError, ArrayError, ObjectError, NumberAllowed, ArrayAllowed, ObjectAllowed, ValueHasType;
    if s.oneOf.Listed? {
      MatchesExact(s.oneOf.schemas, v);
      OneTrueByCount(Verdicts(AsCoded, s.oneOf.schemas, v));
    }
    match v
    case Num(n) => NumberExact(s, n);
    case Arr(vs) => ArrayExact(s, vs);
    case Obj(fields) => ObjectExact(s, fields);
    case _ =>
  }

  lemma NumberExact(s: Schema, n: real)
    ensures NumberError(s, n) == None <==> NumberAllowed(s, n)
  {
  }

  lemma {:induction false} ArrayExact(s: Schema, vs: seq<Json>)
    ensures ArrayError(s, vs) == None <==> ArrayAllowed(AsCoded, s, vs)
    decreases s, 2
  {
    hide Valid, SchemaError;
    DistinctBySize(vs);
    if s.items.Some? { ItemsExact(s.items.value, vs); }
  }

  lemma {:induction false} ObjectExact(s: Schema, fields: seq<(string, Json)>)
    ensures ObjectError(s, fields) == None <==> ObjectAllowed(AsCoded, s, fields)
    decreases s, 2
  {
    hide PropertiesAllowed, PropertiesError, KeysAllowed, FirstExtra, HasKey;
    ClosedCheck(s, fields);
    PropertiesExact(s.properties, fields);
  }

  lemma {:induction false} MatchesExact(candidates: seq<Schema>, v: Json)
    ensures Matches(candidates, v) == CountTrue(Verdicts(AsCoded, candidates, v))
    decreases candidates, 0
  {
    hide Valid, SchemaError;
    if candidates != [] {
      MatchesExact(candidates[1..], v);
      SchemaErrorExact(candidates[0], v);
      assert Verdicts(AsCoded, candidates, v)[1..] == Verdicts(AsCoded, candidates[1..], v);
    }
  }

  lemma {:induction false} ItemsExact(s: Schema, vs: seq<Json>)
    ensures ItemsError(s, vs) == None <==> forall k :: 0 <= k < |vs| ==> Valid(AsCoded, s, vs[k])
    decreases s, 4 + |vs|
  {
    hide Valid, SchemaError;
    if vs != [] {
      SchemaErrorExact(s, vs[0]);
      ItemsExact(s, vs[1..]);
      assert forall k :: 0 < k < |vs| ==> vs[k] == vs[1..][k - 1];
    }
  }

  lemma {:induction false} PropertiesExact(properties: seq<Property>, fields: seq<(string, Json)>)
    ensures PropertiesError(properties, fields) == None <==> PropertiesAllowed(AsCoded, properties, fields)
    decreases properties, 0
  {
    hide Valid, SchemaError, IndexOf;
    if properties != [] {
      var rest := properties[1..];
      var at := IndexOf(fields, properties[0].name);
      if at < |fields| { SchemaErrorExact(properties[0].schema, fields[at].1); }
      PropertiesExact(rest, fields);
      assert forall i :: 0 < i < |properties| ==> properties[i] == rest[i - 1];
    }
  }

  // ---- where the program's reading and the draft's agree ----

  /** A schema that lets only scalars through. */
  predicate ScalarOnly(s: Schema) {
    s.oneOf.Unlisted? && s.types.Some? && forall t :: t in s.types.value ==> t in ["string", "number", "integer", "boolean", "null"]
  }

  /** No keyword that the program looks at only in a schema without candidates. */
  predicate NothingBeside(s: Schema) {
    && s.types.None? && s.minimum.None? && s.maximum.None? && s.minItems.None? && !s.uniqueItems && s.items.None?
    && s.properties == [] && s.required == [] && !s.closed
  }

  /** Constants are scalars, items are only told apart where they are scalars, and candidates stand alone. */
  predicate Supported(s: Schema)
    decreases s
  {
    && (s.constant.Some? ==> IsScalar(s.constant.value))
    && (s.choices.Some? ==> forall c :: c in s.choices.value ==> IsScalar(c))
    && (s.oneOf.Listed? ==> NothingBeside(s) && forall i :: 0 <= i < |s.oneOf.schemas| ==> Supported(s.oneOf.schemas[i]))
    && (s.uniqueItems ==> s.items.Some? && ScalarOnly(s.items.value))
    && (s.items.Some? ==> Supported(s.items.value))
    && (forall i :: 0 <= i < |s.properties| ==> Supported(s.properties[i].schema))
  }

  predicate AllDeclared(properties: seq<Property>, fields: seq<(string, Json)>) {
    forall i :: 0 <= i < |fields| ==> IsProperty(properties, fields[i].0)
  }

  /** A closed object's extra keys, if it has any, are noticed: its keys are all declared, or the first that is neither
      declared nor inherited is not the empty one. */
  predicate ExtrasNoticed(properties: seq<Property>, fields: seq<(string, Json)>) {
    AllDeclared(properties, fields) || (FirstExtra(properties, fields).Some? && FirstExtra(properties, fields).value != "")
  }

  /** Extra keys are noticed in every closed object that the schema leads to in the value. */
  predicate NothingSlips(s: Schema, v: Json)
    decreases s
  {
    if s.oneOf.Listed? then forall i :: 0 <= i < |s.oneOf.schemas| ==> NothingSlips(s.oneOf.schemas[i], v)
    else match v
      case Arr(vs) => s.items.Some? ==> forall k :: 0 <= k < |vs| ==> NothingSlips(s.items.value, vs[k])
      case Obj(fields) =>
        && (s.closed ==> ExtrasNoticed(s.properties, fields))
        && forall i :: 0 <= i < |s.properties| && IndexOf(fields, s.properties[i].name) < |fields| ==>
             NothingSlips(s.properties[i].schema, fields[IndexOf(fields, s.properties[i].name)].1)
      case _ => true
  }

  lemma ScalarConstants(c: Json, v: Json)
    requires IsScalar(c)
    ensures EqualsConstant(ByValue, c, v) <==> EqualsConstant(AsCoded, c, v)
  {
  }

  lemma ScalarItems(s: Schema, vs: seq<Json>, reading: Reading)
    requires ScalarOnly(s) && forall k :: 0 <= k < |vs| ==> Valid(reading, s, vs[k])
    ensures forall i, j :: 0 <= i < j < |vs| ==> (Repeats(ByValue, vs[i], vs[j]) <==> Repeats(AsCoded, vs[i], vs[j]))
  {
    forall k | 0 <= k < |vs| ensures IsScalar(vs[k]) {
      assert Valid(reading, s, vs[k]);
      var i :| 0 <= i < |s.types.value| && ValueHasType(vs[k], s.types.value[i]);
      ScalarNames(s.types.value[i]);
    }
  }

  lemma ScalarNames(t: string)
    requires t in ["string", "number", "integer", "boolean", "null"]
    ensures t != "array" && t != "object"
  {
    assert "object"[0] == 'o' && "array"[0] == 'a';
  }

  /** The two readings of one closed object agree exactly when its extra keys are noticed. */
  lemma ClosedDisagreement(s: Schema, fields: seq<(string, Json)>)
    ensures (KeysAllowed(ByValue, s, fields) <==> KeysAllowed(AsCoded, s, fields)) <==> ExtrasNoticed(s.properties, fields)
    ensures KeysAllowed(ByValue, s, fields) <==> AllDeclared(s.properties, fields)
    ensures KeysAllowed(ByValue, s, fields) ==> KeysAllowed(AsCoded, s, fields)
  {
    hide IsProperty;
    ClosedCheck(s, fields);
    FirstExtraIsFirst(s, fields);
  }

  /** On a supported schema, and unless an extra key slips through, the validator's reading is that of JSON Schema draft
      2020-12. */
  lemma {:induction false} ReadingsAgree(s: Schema, v: Json)
    requires Supported(s) && NothingSlips(s, v)
    ensures Valid(ByValue, s, v) <==> Valid(AsCoded, s, v)
    decreases s
  {
    hide ScalarOnly, ValueHasType, KeysAllowed, HasKey, IndexOf, EqualsConstant, OneTrue, NumberAllowed, ArrayAllowed, ObjectAllowed, ExtrasNoticed;
    ScalarConstraints(s, v);
    if s.oneOf.Listed? {
      forall i | 0 <= i < |s.oneOf.schemas| ensures Valid(ByValue, s.oneOf.schemas[i], v) <==> Valid(AsCoded, s.oneOf.schemas[i], v) {
        ReadingsAgree(s.oneOf.schemas[i], v);
      }
      assert Verdicts(ByValue, s.oneOf.schemas, v) == Verdicts(AsCoded, s.oneOf.schemas, v);
      NothingToAssert(s, v);
    } else {
      match v
      case Arr(vs) => ArraysAgree(s, vs);
      case Obj(fields) => ObjectsAgree(s, fields);
      case _ =>
    }
  }

  lemma NothingToAssert(s: Schema, v: Json)
    requires NothingBeside(s)
    ensures Assertions(ByValue, s, v)
  {
  }

  lemma ScalarConstraints(s: Schema, v: Json)
    requires Supported(s)
    ensures s.constant.Some? ==> (EqualsConstant(ByValue, s.constant.value, v) <==> EqualsConstant(AsCoded, s.constant.value, v))
    ensures s.choices.Some? ==> forall i :: 0 <= i < |s.choices.value| ==>
              (EqualsConstant(ByValue, s.choices.value[i], v) <==> EqualsConstant(AsCoded, s.choices.value[i], v))
  {
    hide EqualsConstant;
    if s.constant.Some? { ScalarConstants(s.constant.value, v); }
    if s.choices.Some? {
      forall i | 0 <= i < |s.choices.value| ensures EqualsConstant(ByValue, s.choices.value[i], v) <==> EqualsConstant(AsCoded, s.choices.value[i], v) {
        ScalarConstants(s.choices.value[i], v);
      }
    }
  }

  lemma {:induction false} ArraysAgree(s: Schema, vs: seq<Json>)
    requires Supported(s) && s.oneOf.Unlisted? && NothingSlips(s, Arr(vs))
    ensures ArrayAllowed(ByValue, s, vs) <==> ArrayAllowed(AsCoded, s, vs)
    decreases s, 0
  {
    hide Valid, SameValue, ScalarOnly;
    if s.items.Some? {
      forall k | 0 <= k < |vs| ensures Valid(ByValue, s.items.value, vs[k]) <==> Valid(AsCoded, s.items.value, vs[k]) {
        ReadingsAgree(s.items.value, vs[k]);
      }
      if s.uniqueItems && forall k :: 0 <= k < |vs| ==> Valid(AsCoded, s.items.value, vs[k]) {
        ScalarItems(s.items.value, vs, AsCoded);
      }
    }
  }

  lemma {:induction false} ObjectsAgree(s: Schema, fields: seq<(string, Json)>)
    requires Supported(s) && s.oneOf.Unlisted? && NothingSlips(s, Obj(fields))
    ensures ObjectAllowed(ByValue, s, fields) <==> ObjectAllowed(AsCoded, s, fields)
    decreases s, 0
  {
    hide Valid, KeysAllowed, HasKey, IndexOf;
    ClosedDisagreement(s, fields);
    forall i | 0 <= i < |s.properties| && IndexOf(fields, s.properties[i].name) < |fields|
      ensures var at := IndexOf(fields, s.properties[i].name);
              Valid(ByValue, s.properties[i].schema, fields[at].1) <==> Valid(AsCoded, s.properties[i].schema, fields[at].1)
    {
      ReadingsAgree(s.properties[i].schema, fields[IndexOf(fields, s.properties[i].name)].1);
    }
  }

  // ---- exactly what the program lets through beyond the draft ----

  /** Wherever the schema lists candidates, no value satisfies two of them. */
  ghost predicate Exclusive(s: Schema)
    decreases s
  {
    && (s.oneOf.Listed? ==>
          && (forall i :: 0 <= i < |s.oneOf.schemas| ==> Exclusive(s.oneOf.schemas[i]))
          && (forall v: Json, i, j :: 0 <= i < j < |s.oneOf.schemas| ==> !(Valid(AsCoded, s.oneOf.schemas[i], v) && Valid(AsCoded, s.oneOf.schemas[j], v))))
    && (s.items.Some? ==> Exclusive(s.items.value))
    && (forall i :: 0 <= i < |s.properties| ==> Exclusive(s.properties[i].schema))
  }

  /** Every closed object that the schema leads to in the value, by the candidates that accept it, has declared keys only. */
  ghost predicate OnlyDeclared(s: Schema, v: Json)
    decreases s, 1
  {
    if s.oneOf.Listed? then
      forall i :: 0 <= i < |s.oneOf.schemas| && Valid(AsCoded, s.oneOf.schemas[i], v) ==> OnlyDeclared(s.oneOf.schemas[i], v)
    else match v
      case Arr(vs) => s.items.Some? ==> forall k :: 0 <= k < |vs| ==> OnlyDeclared(s.items.value, vs[k])
      case Obj(fields) => (s.closed ==> AllDeclared(s.properties, fields)) && PropertiesDeclared(s.properties, fields)
      case _ => true
  }

  ghost predicate PropertiesDeclared(properties: seq<Property>, fields: seq<(string, Json)>)
    decreases properties, 0
  {
    forall i :: 0 <= i < |properties| && IndexOf(fields, properties[i].name) < |fields| ==>
      OnlyDeclared(properties[i].schema, fields[IndexOf(fields, properties[i].name)].1)
  }

  /** For every value whatsoever: the draft accepts it exactly when the program does and no closed object in it has an
      undeclared key. So what the program accepts, the draft accepts exactly when its closed objects are clean. */
  lemma {:induction false} DraftIsCodeWithoutExtras(s: Schema, v: Json)
    requires Supported(s) && Exclusive(s)
    ensures Valid(ByValue, s, v) <==> Valid(AsCoded, s, v) && OnlyDeclared(s, v)
    decreases s, 3
  {
    hide ScalarOnly, ValueHasType, HasKey, IndexOf, EqualsConstant, OneTrue, NumberAllowed, ArrayAllowed, ObjectAllowed, AllDeclared;
    ScalarConstraints(s, v);
    if s.oneOf.Listed? {
      CandidatesWithoutExtras(s, v);
      NothingToAssert(s, v);
    } else {
      match v
      case Arr(vs) => ArrayWithoutExtras(s, vs);
      case Obj(fields) => ObjectWithoutExtras(s, fields);
      case _ =>
    }
  }

  /** The validator and the draft agree on a value exactly when the validator refuses it or it has no such extra key. */
  lemma AgreementOnOneValue(s: Schema, v: Json)
    requires Supported(s) && Exclusive(s)
    ensures (SchemaError(s, v) == None <==> Valid(ByValue, s, v)) <==> (SchemaError(s, v).Some? || OnlyDeclared(s, v))
  {
    SchemaErrorExact(s, v);
    DraftIsCodeWithoutExtras(s, v);
    hide SchemaError, Valid, OnlyDeclared;
  }

  lemma {:induction false} CandidatesWithoutExtras(s: Schema, v: Json)
    requires Supported(s) && Exclusive(s) && s.oneOf.Listed?
    ensures OneTrue(Verdicts(ByValue, s.oneOf.schemas, v)) <==> OneTrue(Verdicts(AsCoded, s.oneOf.schemas, v)) && OnlyDeclared(s, v)
    decreases s, 2
  {
    hide Valid;
    var n := |s.oneOf.schemas|;
    var strict, coded := Verdicts(ByValue, s.oneOf.schemas, v), Verdicts(AsCoded, s.oneOf.schemas, v);
    forall i | 0 <= i < n ensures strict[i] <==> coded[i] && OnlyDeclared(s.oneOf.schemas[i], v) {
      DraftIsCodeWithoutExtras(s.oneOf.schemas[i], v);
    }
    forall i, j | 0 <= i < j < n ensures !(coded[i] && coded[j]) {
      assert coded[i] == Valid(AsCoded, s.oneOf.schemas[i], v) && coded[j] == Valid(AsCoded, s.oneOf.schemas[j], v);
    }
    AtMostOneTrue(strict);
    AtMostOneTrue(coded);
    hide Exclusive, OneTrue;
  }

  lemma AtMostOneTrue(verdicts: seq<bool>)
    requires forall i, j :: 0 <= i < j < |verdicts| ==> !(verdicts[i] && verdicts[j])
    ensures OneTrue(verdicts) <==> exists i :: 0 <= i < |verdicts| && verdicts[i]
  {
    if i :| 0 <= i < |verdicts| && verdicts[i] {
      forall j | 0 <= j < |verdicts| && j != i ensures !verdicts[j] { assert j < i || i < j; }
      assert OnlyTrue(verdicts, i);
    }
  }

  lemma {:induction false} ArrayWithoutExtras(s: Schema, vs: seq<Json>)
    requires Supported(s) && Exclusive(s) && s.oneOf.Unlisted?
    ensures ArrayAllowed(ByValue, s, vs) <==> ArrayAllowed(AsCoded, s, vs) && OnlyDeclared(s, Arr(vs))
    decreases s, 2
  {
    hide Valid, SameValue, ScalarOnly, Repeats;
    if s.items.Some? {
      forall k | 0 <= k < |vs| ensures Valid(ByValue, s.items.value, vs[k]) <==> Valid(AsCoded, s.items.value, vs[k]) && OnlyDeclared(s.items.value, vs[k]) {
        DraftIsCodeWithoutExtras(s.items.value, vs[k]);
      }
      if s.uniqueItems && forall k :: 0 <= k < |vs| ==> Valid(AsCoded, s.items.value, vs[k]) {
        ScalarItems(s.items.value, vs, AsCoded);
      }
    }
  }

  lemma {:induction false} ObjectWithoutExtras(s: Schema, fields: seq<(string, Json)>)
    requires Supported(s) && Exclusive(s) && s.oneOf.Unlisted?
    ensures ObjectAllowed(ByValue, s, fields) <==> ObjectAllowed(AsCoded, s, fields) && OnlyDeclared(s, Obj(fields))
    decreases s, 2
  {
    hide Valid, OnlyDeclared, KeysAllowed, HasKey, IndexOf, AllDeclared;
    ClosedDisagreement(s, fields);
    forall i | 0 <= i < |s.properties| && IndexOf(fields, s.properties[i].name) < |fields|
      ensures var at := IndexOf(fields, s.properties[i].name);
              Valid(ByValue, s.properties[i].schema, fields[at].1)
              <==> Valid(AsCoded, s.properties[i].schema, fields[at].1) && OnlyDeclared(s.properties[i].schema, fields[at].1)
    {
      DraftIsCodeWithoutExtras(s.properties[i].schema, fields[IndexOf(fields, s.properties[i].name)].1);
    }
    assert PropertiesAllowed(ByValue, s.properties, fields) <==>
           PropertiesAllowed(AsCoded, s.properties, fields) && PropertiesDeclared(s.properties, fields);
    hide PropertiesAllowed, PropertiesDeclared;
    ObjectDeclared(s, fields);
  }

  lemma ObjectDeclared(s: Schema, fields: seq<(string, Json)>)
    requires s.oneOf.Unlisted?
    ensures OnlyDeclared(s, Obj(fields)) <==> (s.closed ==> AllDeclared(s.properties, fields)) && PropertiesDeclared(s.properties, fields)
  {
    hide AllDeclared, PropertiesDeclared;
  }

  // ---- and where they do not ----

  const ANYTHING := Schema(None, None, Unlisted, None, None, None, None, false, None, [], [], false)

  /** A closed object with an inherited key, or whose first undeclared key is empty, is accepted although the draft
      refuses it. */
  lemma ClosedObjectsThatSlipThrough()
    ensures SchemaError(ANYTHING.(closed := true), Obj([("toString", Null)])) == None
    ensures !Valid(ByValue, ANYTHING.(closed := true), Obj([("toString", Null)]))
    ensures SchemaError(ANYTHING.(closed := true), Obj([("", Null), ("extra", Null)])) == None
    ensures !Valid(ByValue, ANYTHING.(closed := true), Obj([("", Null), ("extra", Null)]))
  {
    var closed := ANYTHING.(closed := true);
    var inherited, empty := [("toString", Null)], [("", Null), ("extra", Null)];
    assert FirstExtra([], inherited[1..]) == None;
    assert !IsProperty([], inherited[0].0) && !IsProperty([], empty[0].0);
    assert "" !in INHERITED;
    assert FirstExtra([], empty) == Some("");
    assert !KeysAllowed(ByValue, closed, inherited) && !KeysAllowed(ByValue, closed, empty);
  }

  /** The keywords beside a schema's candidates, and the candidates without them. */
  function Beside(s: Schema): Schema {
    s.(constant := None, choices := None, oneOf := Unlisted)
  }

  function Alone(s: Schema): Schema {
    ANYTHING.(constant := s.constant, choices := s.choices, oneOf := s.oneOf)
  }

  /** The draft reads a schema with candidates as both of its parts, the program as the candidates alone. */
  lemma TwoParts(s: Schema, v: Json)
    requires s.oneOf.Listed?
    ensures Valid(ByValue, s, v) <==> Valid(ByValue, Alone(s), v) && Valid(ByValue, Beside(s), v)
    ensures SchemaError(s, v) == SchemaError(Alone(s), v)
  {
    hide OneTrue, EqualsConstant, ArrayAllowed, ObjectAllowed, NumberAllowed;
    NothingToAssert(Alone(s), v);
    assert Assertions(ByValue, Beside(s), v) <==> Assertions(ByValue, s, v) by { SameAssertions(s, v); }
    hide Assertions;
  }

  lemma SameAssertions(s: Schema, v: Json)
    ensures Assertions(ByValue, Beside(s), v) <==> Assertions(ByValue, s, v)
  {
    hide Valid, PropertiesAllowed, KeysAllowed;
    match v
    case Arr(vs) => assert ArrayAllowed(ByValue, Beside(s), vs) <==> ArrayAllowed(ByValue, s, vs);
    case Obj(fields) =>
      assert KeysAllowed(ByValue, Beside(s), fields) <==> KeysAllowed(ByValue, s, fields) by { SameKeys(s, fields); }
      assert ObjectAllowed(ByValue, Beside(s), fields) <==> ObjectAllowed(ByValue, s, fields);
    case _ =>
  }

  lemma SameKeys(s: Schema, fields: seq<(string, Json)>)
    ensures KeysAllowed(ByValue, Beside(s), fields) <==> KeysAllowed(ByValue, s, fields)
  {
  }

  /** Keywords beside candidates: the validator and the draft agree on a value exactly when it is refused, or its closed
      objects are clean and the same schema without its candidates accepts it too. */
  lemma AgreementBesideCandidates(s: Schema, v: Json)
    requires s.oneOf.Listed? && Supported(Alone(s)) && Exclusive(Alone(s)) && Supported(Beside(s)) && Exclusive(Beside(s))
    ensures (SchemaError(s, v) == None <==> Valid(ByValue, s, v)) <==>
            || SchemaError(s, v).Some?
            || (OnlyDeclared(Alone(s), v) && SchemaError(Beside(s), v) == None && OnlyDeclared(Beside(s), v))
  {
    hide SchemaError, Valid, OnlyDeclared, Supported, Exclusive;
    TwoParts(s, v);
    SchemaErrorExact(Alone(s), v);
    SchemaErrorExact(Beside(s), v);
    DraftIsCodeWithoutExtras(Alone(s), v);
    DraftIsCodeWithoutExtras(Beside(s), v);
  }

  /** Any text, and nothing else, by the draft; anything at all by the validator. */
  const TEXT_BESIDE_ANYTHING := ANYTHING.(oneOf := Listed([ANYTHING]), types := Some(["string"]))

  /** A number where the keyword beside the one candidate asks for text: accepted, although the draft refuses it. */
  lemma KeywordsBesideSlipThrough(n: real)
    ensures SchemaError(TEXT_BESIDE_ANYTHING, Num(n)) == None && !Valid(ByValue, TEXT_BESIDE_ANYTHING, Num(n))
  {
    var s := TEXT_BESIDE_ANYTHING;
    assert SchemaError(ANYTHING, Num(n)) == None;
    assert Matches([ANYTHING], Num(n)) == 1 by { assert [ANYTHING][1..] == []; }
    assert s.types.value == ["string"] && !ValueHasType(Num(n), "string");
    assert !Assertions(ByValue, s, Num(n));
  }

  /** An object that names each key once, all the way down. */
  predicate WellFormed(v: Json)
    decreases v
  {
    match v
    case Arr(vs) => forall i :: 0 <= i < |vs| ==> WellFormed(vs[i])
    case Obj(fields) => DistinctKeys(fields) && forall i :: 0 <= i < |fields| ==> WellFormed(fields[i].1)
    case _ => true
  }

  lemma {:induction false} SameAsItself(v: Json)
    requires WellFormed(v)
    ensures SameValue(v, v)
    decreases v
  {
    match v
    case Arr(vs) => forall i | 0 <= i < |vs| ensures SameValue(vs[i], vs[i]) { SameAsItself(vs[i]); }
    case Obj(fields) =>
      forall i | 0 <= i < |fields| ensures IndexOf(fields, fields[i].0) == i && SameValue(fields[i].1, fields[i].1) {
        SameAsItself(fields[i].1);
      }
    case _ =>
  }

  /** A constant is read alike for every value exactly when it is a scalar. */
  lemma ConstantAgreement(c: Json)
    requires WellFormed(c)
    ensures (forall v: Json :: EqualsConstant(ByValue, c, v) <==> EqualsConstant(AsCoded, c, v)) <==> IsScalar(c)
  {
    if IsScalar(c) {
      forall v ensures EqualsConstant(ByValue, c, v) <==> EqualsConstant(AsCoded, c, v) { ScalarConstants(c, v); }
    } else {
      SameAsItself(c);
      assert EqualsConstant(ByValue, c, c) && !EqualsConstant(AsCoded, c, c);
    }
  }

  /** A list of choices is read alike for every value exactly when all of them are scalars. */
  lemma EnumAgreement(choices: seq<Json>)
    requires forall i :: 0 <= i < |choices| ==> WellFormed(choices[i])
    ensures (forall v: Json :: Chosen(ByValue, choices, v) <==> Chosen(AsCoded, choices, v)) <==>
            forall i :: 0 <= i < |choices| ==> IsScalar(choices[i])
  {
    hide EqualsConstant;
    if forall i :: 0 <= i < |choices| ==> IsScalar(choices[i]) {
      forall v ensures Chosen(ByValue, choices, v) <==> Chosen(AsCoded, choices, v) {
        forall i | 0 <= i < |choices| ensures EqualsConstant(ByValue, choices[i], v) <==> EqualsConstant(AsCoded, choices[i], v) {
          ScalarConstants(choices[i], v);
        }
      }
    } else {
      var k :| 0 <= k < |choices| && !IsScalar(choices[k]);
      ContainerIsNeverChosen(choices, k);
    }
  }

  ghost predicate Chosen(reading: Reading, choices: seq<Json>, v: Json) {
    exists i :: 0 <= i < |choices| && EqualsConstant(reading, choices[i], v)
  }

  lemma ContainerIsNeverChosen(choices: seq<Json>, k: nat)
    requires k < |choices| && WellFormed(choices[k]) && !IsScalar(choices[k])
    ensures Chosen(ByValue, choices, choices[k]) && !Chosen(AsCoded, choices, choices[k])
  {
    SameAsItself(choices[k]);
    assert EqualsConstant(ByValue, choices[k], choices[k]);
  }

  // ---- items told apart by their text ----

  const UNIQUE := ANYTHING.(uniqueItems := true)

  /** Two of the items are equal but print differently. */
  ghost predicate HasReorderedTwins(vs: seq<Json>) {
    exists i, j :: 0 <= i < j < |vs| && SameValue(vs[i], vs[j]) && vs[i] != vs[j]
  }

  /** The program accepts a list as unique exactly when no two items print alike, and the draft when no two are equal.
      The two agree on a list exactly when two of its items print alike, or none of them are reordered twins. */
  lemma UniqueItemsAgreement(vs: seq<Json>)
    requires forall i :: 0 <= i < |vs| ==> WellFormed(vs[i])
    ensures SchemaError(UNIQUE, Arr(vs)) == None <==> AllDistinct(vs)
    ensures Valid(ByValue, UNIQUE, Arr(vs)) <==> forall i, j :: 0 <= i < j < |vs| ==> !SameValue(vs[i], vs[j])
    ensures (SchemaError(UNIQUE, Arr(vs)) == None <==> Valid(ByValue, UNIQUE, Arr(vs))) <==> !AllDistinct(vs) || !HasReorderedTwins(vs)
    ensures Valid(ByValue, UNIQUE, Arr(vs)) ==> SchemaError(UNIQUE, Arr(vs)) == None
  {
    DistinctBySize(vs);
    UniqueReading(vs);
    forall i, j | 0 <= i < j < |vs| && vs[i] == vs[j] ensures SameValue(vs[i], vs[j]) { SameAsItself(vs[i]); }
    hide SchemaError, Valid, SameValue, WellFormed;
  }

  lemma UniqueReading(vs: seq<Json>)
    ensures SchemaError(UNIQUE, Arr(vs)) == None <==> |set x | x in vs| == |vs|
    ensures Valid(ByValue, UNIQUE, Arr(vs)) <==> forall i, j :: 0 <= i < j < |vs| ==> !SameValue(vs[i], vs[j])
  {
    hide SameValue;
    assert ArrayError(UNIQUE, vs) == None <==> |set x | x in vs| == |vs|;
    assert forall i, j :: 0 <= i < j < |vs| ==> (Repeats(ByValue, vs[i], vs[j]) <==> SameValue(vs[i], vs[j]));
  }

  /** Any object and any other order of its fields are equal, and pass as two different items. */
  lemma ReorderedTwins(f: seq<(string, Json)>, g: seq<(string, Json)>)
    requires WellFormed(Obj(f)) && multiset(f) == multiset(g) && f != g
    ensures SameValue(Obj(f), Obj(g))
    ensures SchemaError(UNIQUE, Arr([Obj(f), Obj(g)])) == None && !Valid(ByValue, UNIQUE, Arr([Obj(f), Obj(g)]))
  {
    var twins := [Obj(f), Obj(g)];
    assert |multiset(f)| == |f| && |multiset(g)| == |g|;
    forall i | 0 <= i < |f| ensures IndexOf(g, f[i].0) < |g| && SameValue(f[i].1, g[IndexOf(g, f[i].0)].1) {
      FieldElsewhere(f, g, i);
      SameAsItself(f[i].1);
    }
    assert SameValue(twins[0], twins[1]);
    assert AllDistinct(twins);
    DistinctBySize(twins);
    UniqueReading(twins);
    hide SchemaError, Valid, SameValue;
  }

  lemma FieldElsewhere(f: seq<(string, Json)>, g: seq<(string, Json)>, i: nat)
    requires DistinctKeys(f) && multiset(f) == multiset(g) && i < |f|
    ensures IndexOf(g, f[i].0) < |g| && g[IndexOf(g, f[i].0)] == f[i]
  {
    assert f[i] in multiset(g);
    var k :| 0 <= k < |g| && g[k] == f[i];
    var at := IndexOf(g, f[i].0);
    assert g[at] in multiset(f);
    var h :| 0 <= h < |f| && f[h] == g[at];
    assert f[h].0 == f[i].0;
  }

  /** Every object in the value lists its fields by increasing rank of their keys. */
  predicate InOrder(rank: string -> int, v: Json)
    decreases v
  {
    match v
    case Arr(vs) => forall i :: 0 <= i < |vs| ==> InOrder(rank, vs[i])
    case Obj(fields) =>
      && (forall i, j :: 0 <= i < j < |fields| ==> rank(fields[i].0) < rank(fields[j].0))
      && forall i :: 0 <= i < |fields| ==> InOrder(rank, fields[i].1)
    case _ => true
  }

  /** Values that list their fields in one consistent order are equal only when they print alike. */
  lemma {:induction false} InOrderPrintsAlike(rank: string -> int, a: Json, b: Json)
    requires InOrder(rank, a) && InOrder(rank, b) && SameValue(a, b)
    ensures a == b
    decreases a
  {
    EqualInOrder(rank, a, b);
    hide InOrder, SameValue;
    match (a, b)
    case (Arr(xs), Arr(ys)) =>
      forall i | 0 <= i < |xs| ensures xs[i] == ys[i] { InOrderPrintsAlike(rank, xs[i], ys[i]); }
    case (Obj(f), Obj(g)) =>
      forall i | 0 <= i < |f| ensures f[i] == g[i] { InOrderPrintsAlike(rank, f[i].1, g[i].1); }
    case _ =>
  }

  ghost predicate EqualParts(rank: string -> int, a: Json, b: Json) {
    InOrder(rank, a) && InOrder(rank, b) && SameValue(a, b)
  }

  /** Two such values are equal part by part. */
  lemma EqualInOrder(rank: string -> int, a: Json, b: Json)
    requires EqualParts(rank, a, b)
    ensures match (a, b)
            case (Arr(xs), Arr(ys)) => |xs| == |ys| && forall i :: 0 <= i < |xs| ==> EqualParts(rank, xs[i], ys[i])
            case (Obj(f), Obj(g)) =>
              |f| == |g| && forall i :: 0 <= i < |f| ==> f[i].0 == g[i].0 && EqualParts(rank, f[i].1, g[i].1)
            case _ => a == b
  {
    if a.Obj? { FieldsKeepPlaces(rank, a.fields, b.fields); }
  }

  lemma FieldsKeepPlaces(rank: string -> int, f: seq<(string, Json)>, g: seq<(string, Json)>)
    requires |f| == |g| && forall i :: 0 <= i < |f| ==> IndexOf(g, f[i].0) < |g|
    requires forall i, j :: 0 <= i < j < |f| ==> rank(f[i].0) < rank(f[j].0)
    requires forall i, j :: 0 <= i < j < |g| ==> rank(g[i].0) < rank(g[j].0)
    ensures forall i :: 0 <= i < |f| ==> IndexOf(g, f[i].0) == i
  {
    var place := seq(|f|, i requires 0 <= i < |f| => IndexOf(g, f[i].0));
    forall i, j | 0 <= i < j < |f| ensures place[i] < place[j] { PlacesIncrease(rank, f, g, i, j); }
    hide IndexOf;
    forall i | 0 <= i < |f| ensures IndexOf(g, f[i].0) == i {
      IncreasingPlaces(place, i);
      assert place[i] == IndexOf(g, f[i].0);
    }
  }

  lemma PlacesIncrease(rank: string -> int, f: seq<(string, Json)>, g: seq<(string, Json)>, i: nat, j: nat)
    requires i < j < |f| && rank(f[i].0) < rank(f[j].0) && IndexOf(g, f[i].0) < |g| && IndexOf(g, f[j].0) < |g|
    requires forall i, j :: 0 <= i < j < |g| ==> rank(g[i].0) < rank(g[j].0)
    ensures IndexOf(g, f[i].0) < IndexOf(g, f[j].0)
  {
    var p, q := IndexOf(g, f[i].0), IndexOf(g, f[j].0);
    assert g[p].0 == f[i].0 && g[q].0 == f[j].0;
  }

  /** A strictly increasing sequence of places below its own length is the identity. */
  lemma IncreasingPlaces(place: seq<nat>, i: nat)
    requires i < |place| && (forall k :: 0 <= k < |place| ==> place[k] < |place|)
    requires forall k, m :: 0 <= k < m < |place| ==> place[k] < place[m]
    ensures place[i] == i
  {
    AtLeast(place, i);
    AtMost(place, i);
  }

  lemma {:induction false} AtLeast(place: seq<nat>, i: nat)
    requires i < |place| && forall k, m :: 0 <= k < m < |place| ==> place[k] < place[m]
    ensures place[i] >= i
  {
    if i > 0 { AtLeast(place, i - 1); }
  }

  lemma {:induction false} AtMost(place: seq<nat>, i: nat)
    requires i < |place| && (forall k :: 0 <= k < |place| ==> place[k] < |place|)
    requires forall k, m :: 0 <= k < m < |place| ==> place[k] < place[m]
    ensures place[i] <= i
    decreases |place| - i
  {
    if i + 1 < |place| { AtMost(place, i + 1); }
  }

  /** On lists whose objects all list their fields in one order, telling items apart by their text is the draft's test. */
  lemma OneOrderAgrees(rank: string -> int, vs: seq<Json>)
    requires forall i :: 0 <= i < |vs| ==> WellFormed(vs[i]) && InOrder(rank, vs[i])
    ensures SchemaError(UNIQUE, Arr(vs)) == None <==> Valid(ByValue, UNIQUE, Arr(vs))
  {
    UniqueItemsAgreement(vs);
    forall i, j | 0 <= i < j < |vs| && SameValue(vs[i], vs[j]) ensures vs[i] == vs[j] { InOrderPrintsAlike(rank, vs[i], vs[j]); }
    hide SchemaError, Valid;
  }

  // ---- a tool's arguments ----

  datatype Tool = Tool(name: string, inputSchema: Schema)

  datatype ToolInputError = NoToolName | UnknownTool | NotAnObject | Unsupported(keyword: Keyword)

  function FindTool(tools: seq<Tool>, name: string): Option<Tool> {
    if tools == [] then None else if tools[0].name == name then Some(tools[0]) else FindTool(tools[1..], name)
  }

  function ValidateToolArguments(tools: seq<Tool>, name: Option<string>, args: Json): Result<Tool, ToolInputError> {
    if name == None || name.value == "" then Err(NoToolName)
    else
      var tool := FindTool(tools, name.value);
      if tool.None? then Err(UnknownTool)
      else if !args.Obj? then Err(NotAnObject)
      else
        var error := SchemaError(tool.value.inputSchema, args);
        if error.Some? then Err(Unsupported(error.value)) else Ok(tool.value)
  }

  /** The tool found under a name is the first one that has it. */
  ghost predicate Names(tools: seq<Tool>, i: int, name: Option<string>) {
    0 <= i < |tools| && name == Some(tools[i].name) && name.value != "" && forall j :: 0 <= j < i ==> tools[j].name != tools[i].name
  }

  lemma {:induction false} FindToolFinds(tools: seq<Tool>, name: string)
    requires name != ""
    ensures FindTool(tools, name).None? ==> forall i :: 0 <= i < |tools| ==> tools[i].name != name
    ensures FindTool(tools, name).Some? ==> exists i :: Names(tools, i, Some(name)) && FindTool(tools, name) == Some(tools[i])
    ensures forall i, j :: Names(tools, i, Some(name)) && Names(tools, j, Some(name)) ==> i == j
  {
    if tools != [] {
      var rest := tools[1..];
      FindToolFinds(rest, name);
      assert forall i :: 0 < i < |tools| ==> tools[i] == rest[i - 1];
      if tools[0].name == name {
        assert Names(tools, 0, Some(name));
      } else if FindTool(rest, name).Some? {
        var i :| Names(rest, i, Some(name)) && FindTool(rest, name) == Some(rest[i]);
        assert Names(tools, i + 1, Some(name));
      }
    }
  }

  /** Arguments are accepted exactly when some tool has the name, they are an object, and they satisfy the schema of the
      first tool of that name as the program reads it. */
  lemma ToolArgumentsExact(tools: seq<Tool>, name: Option<string>, args: Json)
    ensures ValidateToolArguments(tools, name, args).Ok? <==>
            exists i :: Names(tools, i, name) && args.Obj? && Valid(AsCoded, tools[i].inputSchema, args)
    ensures forall i :: Names(tools, i, name) && args.Obj? && Valid(AsCoded, tools[i].inputSchema, args) ==>
              ValidateToolArguments(tools, name, args) == Ok(tools[i])
  {
    hide Valid, SchemaError;
    if name.Some? && name.value != "" {
      FindToolFinds(tools, name.value);
      forall i | 0 <= i < |tools| ensures SchemaError(tools[i].inputSchema, args) == None <==> Valid(AsCoded, tools[i].inputSchema, args) {
        SchemaErrorExact(tools[i].inputSchema, args);
      }
    }
  }

  /** Over supported schemas with exclusive candidates: arguments satisfy the named tool's schema as the draft reads it
      exactly when they are accepted and their closed objects have no undeclared key. */
  lemma DraftArgumentsExact(tools: seq<Tool>, name: Option<string>, args: Json)
    requires forall i :: 0 <= i < |tools| ==> Supported(tools[i].inputSchema) && Exclusive(tools[i].inputSchema)
    ensures (exists i :: Names(tools, i, name) && args.Obj? && Valid(ByValue, tools[i].inputSchema, args)) <==>
            var r := ValidateToolArguments(tools, name, args); r.Ok? && OnlyDeclared(r.value.inputSchema, args)
  {
    hide Valid, ValidateToolArguments, OnlyDeclared, Supported, Exclusive;
    ToolArgumentsExact(tools, name, args);
    forall i | 0 <= i < |tools|
      ensures Valid(ByValue, tools[i].inputSchema, args) <==> Valid(AsCoded, tools[i].inputSchema, args) && OnlyDeclared(tools[i].inputSchema, args)
    {
      DraftIsCodeWithoutExtras(tools[i].inputSchema, args);
    }
    var r := ValidateToolArguments(tools, name, args);
    if r.Ok? {
      var i :| Names(tools, i, name) && args.Obj? && Valid(AsCoded, tools[i].inputSchema, args);
      assert r == Ok(tools[i]);
    }
  }
}

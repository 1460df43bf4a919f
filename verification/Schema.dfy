/** JSON-schema validation and the two rewrites that let optional fields be null. */
module Schema {

  /** A decoded JSON value; a number is kept as the text it prints as. */
  datatype Json =
    | Null
    | Bool(b: bool)
    | Num(text: string)
    | Str(s: string)
    | Arr(items: seq<Json>)
    | Obj(fields: map<string, Json>)

  predicate Scalar(v: Json) {
    !v.Arr? && !v.Obj?
  }

  // ----- reading a schema -----

  function Properties(m: map<string, Json>): map<string, Json> {
    if "properties" in m && m["properties"].Obj? then m["properties"].fields else map[]
  }

  predicate HasProperties(m: map<string, Json>) {
    "properties" in m && m["properties"].Obj?
  }

  function Strings(xs: seq<Json>): set<string> {
    set i | 0 <= i < |xs| && xs[i].Str? :: xs[i].s
  }

  function Required(m: map<string, Json>): set<string> {
    if "required" in m && m["required"].Arr? then Strings(m["required"].items) else {}
  }

  predicate HasEnum(m: map<string, Json>) {
    "enum" in m && m["enum"].Arr?
  }

  /** A type list that names no type constrains nothing. */
  predicate NamesTypes(m: map<string, Json>) {
    "type" in m && (m["type"].Str? || (m["type"].Arr? && Strings(m["type"].items) != {}))
  }

  function Types(m: map<string, Json>): set<string>
    requires NamesTypes(m)
  {
    if m["type"].Str? then {m["type"].s} else Strings(m["type"].items)
  }

  // ----- validation -----

  predicate Digits(t: string) {
    t != "" && forall i :: 0 <= i < |t| ==> '0' <= t[i] <= '9'
  }

  function Decimal(t: string): nat {
    if t == "" || !('0' <= t[|t| - 1] <= '9') then 0 else 10 * Decimal(t[..|t| - 1]) + (t[|t| - 1] as int - '0' as int)
  }

  /** The text parses as a signed 64-bit integer. */
  predicate IsInteger(t: string) {
    if t != "" && t[0] == '-' then Digits(t[1..]) && Decimal(t[1..]) <= 0x8000_0000_0000_0000
    else Digits(t) && Decimal(t) < 0x8000_0000_0000_0000
  }

  predicate MatchesType(v: Json, t: string) {
    if t == "object" then v.Obj?
    else if t == "array" then v.Arr?
    else if t == "string" then v.Str?
    else if t == "integer" then v.Num? && IsInteger(v.text)
    else if t == "number" then v.Num?
    else if t == "boolean" then v.Bool?
    else if t == "null" then v.Null?
    else true
  }

  predicate MatchesTypes(v: Json, m: map<string, Json>) {
    NamesTypes(m) ==> exists t :: t in Types(m) && MatchesType(v, t)
  }

  predicate MatchesEnum(v: Json, m: map<string, Json>) {
    HasEnum(m) ==> v in m["enum"].items
  }

  predicate FieldsAllowed(keys: set<string>, m: map<string, Json>) {
    && Required(m) <= keys
    && ("additionalProperties" in m && m["additionalProperties"] == Bool(false) ==> keys <= Properties(m).Keys)
  }

  /** The validator: a schema that is not an object accepts everything. */
  predicate Accepts(s: Json, v: Json)
    decreases v
  {
    s.Obj? ==>
      && MatchesEnum(v, s.fields)
      && MatchesTypes(v, s.fields)
      && (v.Obj? ==>
            && FieldsAllowed(v.fields.Keys, s.fields)
            && forall k :: k in v.fields && k in Properties(s.fields) ==> Accepts(Properties(s.fields)[k], v.fields[k]))
      && (v.Arr? && "items" in s.fields ==> forall i :: 0 <= i < |v.items| ==> Accepts(s.fields["items"], v.items[i]))
  }

  // ----- what each keyword asks for -----

  /** The schema with these keywords alone. */
  function Only(m: map<string, Json>, keywords: set<string>): Json {
    Obj(map k | k in m && k in keywords :: m[k])
  }

  /** A schema asks for what its keywords ask for one by one, the two about unlisted and listed properties together. */
  lemma KeywordsConjoin(m: map<string, Json>, v: Json)
    ensures Accepts(Obj(m), v) <==>
            && Accepts(Only(m, {"type"}), v) && Accepts(Only(m, {"enum"}), v) && Accepts(Only(m, {"required"}), v)
            && Accepts(Only(m, {"properties", "additionalProperties"}), v) && Accepts(Only(m, {"items"}), v)
  {
    hide MatchesTypes, MatchesEnum, Only;
    OnlyType(m, v);
    OnlyEnumOrRequired(m, v);
    OnlyChildren(m, v);
  }

  lemma OnlyType(m: map<string, Json>, v: Json)
    ensures Accepts(Only(m, {"type"}), v) <==> MatchesTypes(v, m)
  {
    if NamesTypes(m) { assert Types(Only(m, {"type"}).fields) == Types(m); }
  }

  lemma OnlyEnumOrRequired(m: map<string, Json>, v: Json)
    ensures Accepts(Only(m, {"enum"}), v) <==> MatchesEnum(v, m)
    ensures Accepts(Only(m, {"required"}), v) <==> (v.Obj? ==> Required(m) <= v.fields.Keys)
  {
    hide Strings;
    assert Required(Only(m, {"required"}).fields) == Required(m);
    assert Required(Only(m, {"enum"}).fields) == {};
  }

  lemma OnlyChildren(m: map<string, Json>, v: Json)
    ensures Accepts(Only(m, {"properties", "additionalProperties"}), v) <==>
            (v.Obj? ==>
               && ("additionalProperties" in m && m["additionalProperties"] == Bool(false) ==>
                     v.fields.Keys <= Properties(m).Keys)
               && forall k :: k in v.fields && k in Properties(m) ==> Accepts(Properties(m)[k], v.fields[k]))
    ensures Accepts(Only(m, {"items"}), v) <==>
            (v.Arr? && "items" in m ==> forall i :: 0 <= i < |v.items| ==> Accepts(m["items"], v.items[i]))
  {
    var o := Only(m, {"properties", "additionalProperties"}).fields;
    assert Properties(o) == Properties(m) && !HasEnum(o) && !NamesTypes(o) && Required(o) == {};
  }

  lemma TypeName(t: string, v: Json)
    ensures Accepts(Obj(map["type" := Str(t)]), v) <==> MatchesType(v, t)
  {
    assert Types(map["type" := Str(t)]) == {t};
  }

  /**
   * A schema that only names a type accepts the values of that kind, and all of
   * them; another name asks for nothing.
   */
  lemma TypeNamesKind(t: string, v: Json)
    ensures
      var accepted := Accepts(Obj(map["type" := Str(t)]), v);
      match t
      case "object" => accepted <==> v.Obj?
      case "array" => accepted <==> v.Arr?
      case "string" => accepted <==> v.Str?
      case "number" => accepted <==> v.Num?
      case "boolean" => accepted <==> v.Bool?
      case "null" => accepted <==> v == Null
      case "integer" => accepted ==> v.Num?
      case _ => accepted
  {
    TypeName(t, v);
  }

  /** A list of types accepts what one of the types it names accepts, and everything if it names none. */
  lemma TypeListJoins(ts: seq<Json>, v: Json)
    ensures Accepts(Obj(map["type" := Arr(ts)]), v) <==>
            || (forall i :: 0 <= i < |ts| ==> !ts[i].Str?)
            || (exists i :: 0 <= i < |ts| && ts[i].Str? && Accepts(Obj(map["type" := ts[i]]), v))
  {
    var m := map["type" := Arr(ts)];
    forall i | 0 <= i < |ts| && ts[i].Str?
      ensures ts[i].s in Strings(ts) && (Accepts(Obj(map["type" := ts[i]]), v) <==> MatchesType(v, ts[i].s))
    {
      TypeName(ts[i].s, v);
    }
    if Accepts(Obj(m), v) && exists i :: 0 <= i < |ts| && ts[i].Str? {
      var t :| t in Types(m) && MatchesType(v, t);
      var i :| 0 <= i < |ts| && ts[i].Str? && ts[i].s == t;
      assert ts[i] == Str(t);
    }
  }

  function Printed(n: nat): string {
    var digit := ['0' + (n % 10) as char];
    if n < 10 then digit else Printed(n / 10) + digit
  }

  function Signed(n: int): string {
    if n < 0 then "-" + Printed(-n) else Printed(n)
  }

  lemma {:induction false} PrintedReads(n: nat)
    ensures Digits(Printed(n)) && Decimal(Printed(n)) == n
  {
    if n >= 10 { PrintedReads(n / 10); }
    var t := Printed(n);
    assert t[..|t| - 1] == if n < 10 then "" else Printed(n / 10);
  }

  /** A number that is printed as an integer passes for one exactly when it fits into 64 bits. */
  lemma IntegerByValue(n: int)
    ensures Accepts(Obj(map["type" := Str("integer")]), Num(Signed(n))) <==>
            -0x8000_0000_0000_0000 <= n <= 0x7fff_ffff_ffff_ffff
  {
    TypeName("integer", Num(Signed(n)));
    PrintedReads(if n < 0 then -n else n);
    if n < 0 {
      assert Signed(n)[1..] == Printed(-n);
    } else {
      assert '0' <= Signed(n)[0] <= '9';
    }
  }

  /** And one that is printed with a point or an exponent does not. */
  lemma FractionIsNoInteger(text: string, i: nat)
    requires i < |text| && text[i] in {'.', 'e', 'E', '+'}
    ensures !Accepts(Obj(map["type" := Str("integer")]), Num(text))
  {
    TypeName("integer", Num(text));
    if text[0] == '-' && i > 0 { assert text[1..][i - 1] == text[i]; }
  }

  lemma EnumLists(xs: seq<Json>, v: Json)
    ensures Accepts(Obj(map["enum" := Arr(xs)]), v) <==> v in xs
  {
  }

  /** Of objects, the listed fields; a list entry that is no text asks for nothing. */
  lemma RequiredAsks(xs: seq<Json>, v: Json)
    ensures Accepts(Obj(map["required" := Arr(xs)]), v) <==>
            (v.Obj? ==> forall i :: 0 <= i < |xs| && xs[i].Str? ==> xs[i].s in v.fields)
  {
    var m := map["required" := Arr(xs)];
    if v.Obj? && Accepts(Obj(m), v) {
      forall i | 0 <= i < |xs| && xs[i].Str? ensures xs[i].s in v.fields { assert xs[i].s in Required(m); }
    }
  }

  /** Of objects, that each listed property that is there fits its schema. */
  lemma PropertiesAsk(props: map<string, Json>, v: Json)
    ensures Accepts(Obj(map["properties" := Obj(props)]), v) <==>
            (v.Obj? ==> forall k :: k in props && k in v.fields ==> Accepts(props[k], v.fields[k]))
  {
  }

  /** And, where additional properties are refused, that there is no other. */
  lemma AdditionalRefused(props: map<string, Json>, v: Json)
    ensures Accepts(Obj(map["properties" := Obj(props), "additionalProperties" := Bool(false)]), v) <==>
            (v.Obj? ==> forall k :: k in v.fields ==> k in props && Accepts(props[k], v.fields[k]))
  {
    var m := map["properties" := Obj(props), "additionalProperties" := Bool(false)];
    assert m == Only(m, {"properties", "additionalProperties"}).fields && Properties(m) == props;
    OnlyChildren(m, v);
  }

  /** Alone that lets no field through. */
  lemma AdditionalRefusedAlone(v: Json)
    ensures Accepts(Obj(map["additionalProperties" := Bool(false)]), v) <==> (v.Obj? ==> v.fields == map[])
  {
    var m := map["additionalProperties" := Bool(false)];
    assert m == Only(m, {"properties", "additionalProperties"}).fields && Properties(m) == map[];
    OnlyChildren(m, v);
    if v.Obj? && v.fields.Keys == {} { assert v.fields == map[]; }
  }

  lemma ItemsAsk(s: Json, v: Json)
    ensures Accepts(Obj(map["items" := s]), v) <==>
            (v.Arr? ==> forall i :: 0 <= i < |v.items| ==> Accepts(s, v.items[i]))
  {
  }

  // ----- the rewrites -----

  function NullableEnum(m: map<string, Json>): map<string, Json> {
    if HasEnum(m) && Null !in m["enum"].items then m["enum" := Arr(m["enum"].items + [Null])] else m
  }

  function NullableType(m: map<string, Json>): map<string, Json> {
    if "type" !in m then m
    else match m["type"]
      case Str(t) => if t != "null" then m["type" := Arr([Str(t), Str("null")])] else m
      case Arr(ts) => if Str("null") !in ts then m["type" := Arr(ts + [Str("null")])] else m
      case _ => m
  }

  /** `allowSchemaNull`. */
  function AllowNull(s: Json): Json {
    if s.Obj? then Obj(NullableType(NullableEnum(s.fields))) else s
  }

  /** `allowOptionalSchemaNulls`: every optional property also takes null. */
  function Relax(s: Json): Json {
    if !s.Obj? then s
    else
      var m := s.fields;
      var m1 := if !HasProperties(m) then m else
        var props := m["properties"].fields;
        m["properties" := Obj(map k | k in props :: if k in Required(m) then Relax(props[k])
            else AllowNull(Relax(props[k])))];
      Obj(if "items" in m then m1["items" := Relax(m["items"])] else m1)
  }

  predicate TypeIsObject(m: map<string, Json>) {
    "type" in m && m["type"] == Str("object")
  }

  /** An object schema is shut to unknown fields, and all its properties become required. */
  function Shut(m: map<string, Json>): map<string, Json> {
    if !TypeIsObject(m) then m
    else
      var m0 := if "additionalProperties" in m then m else m["additionalProperties" := Bool(false)];
      if HasProperties(m) then m0["required" := Arr(Listed(m["properties"].fields.Keys))] else m0
  }

  /** `addAdditionalPropertiesFalse`: close objects, require every property, and let once-optional ones be null. */
  function Close(s: Json): Json
    decreases s, 1
  {
    if !s.Obj? then s
    else
      var m1 := Shut(s.fields);
      var m2 := if HasProperties(s.fields) then m1["properties" := Obj(CloseProperties(s))] else m1;
      Obj(if "items" in s.fields then m2["items" := Close(s.fields["items"])] else m2)
  }

  function CloseProperties(s: Json): (r: map<string, Json>)
    requires s.Obj? && HasProperties(s.fields)
    ensures r.Keys == Properties(s.fields).Keys
    decreases s, 0
  {
    var props := s.fields["properties"].fields;
    map k | k in props :: if k in Required(s.fields) then Close(props[k]) else AllowNull(Close(props[k]))
  }

  // ----- property names in sorted order -----

  predicate Before(a: string, b: string)
    decreases |a|
  {
    if a == "" then true
    else if b == "" then false
    else a[0] < b[0] || (a[0] == b[0] && Before(a[1..], b[1..]))
  }

  lemma {:induction false} BeforeIsTotal(a: string, b: string)
    ensures Before(a, b) || Before(b, a)
    ensures Before(a, b) && Before(b, a) ==> a == b
    decreases |a|
  {
    if a != "" && b != "" {
      BeforeIsTotal(a[1..], b[1..]);
      assert a == [a[0]] + a[1..] && b == [b[0]] + b[1..];
    }
  }

  lemma {:induction false} BeforeChains(a: string, b: string, c: string)
    requires Before(a, b) && Before(b, c)
    ensures Before(a, c)
    decreases |a|
  {
    if a != "" && a[0] == b[0] == c[0] { BeforeChains(a[1..], b[1..], c[1..]); }
  }

  predicate IsFirst(names: set<string>, f: string) {
    f in names && forall n :: n in names ==> Before(f, n)
  }

  lemma {:induction false} FirstExists(names: set<string>)
    requires names != {}
    ensures exists f :: IsFirst(names, f)
    decreases |names|
  {
    var a :| a in names;
    BeforeIsTotal(a, a);
    if names == {a} {
      assert IsFirst(names, a);
    } else {
      var rest := names - {a};
      FirstExists(rest);
      var f :| IsFirst(rest, f);
      BeforeIsTotal(a, f);
      var first := if Before(a, f) then a else f;
      forall n | n in names
        ensures Before(first, n)
      {
        if n != a && first == a { BeforeChains(a, f, n); }
      }
      assert IsFirst(names, first);
    }
  }

  lemma FirstIsUnique(names: set<string>, a: string, b: string)
    requires IsFirst(names, a) && IsFirst(names, b)
    ensures a == b
  {
    BeforeIsTotal(a, b);
  }

  function First(names: set<string>): (first: string)
    requires names != {}
    ensures IsFirst(names, first)
  {
    FirstExists(names);
    assert forall a, b :: IsFirst(names, a) && IsFirst(names, b) ==> a == b by {
      forall a, b | IsFirst(names, a) && IsFirst(names, b) ensures a == b { FirstIsUnique(names, a, b); }
    }
    var first :| IsFirst(names, first);
    first
  }

  function Listed(names: set<string>): (xs: seq<Json>)
    ensures Strings(xs) == names
  {
    if names == {} then []
    else
      var f := First(names);
      var rest := Listed(names - {f});
      assert Strings([Str(f)] + rest) == {f} + Strings(rest) by { StringsOfCons(Str(f), rest); }
      [Str(f)] + rest
  }

  lemma StringsOfCons(x: Json, xs: seq<Json>)
    ensures Strings([x] + xs) == (if x.Str? then {x.s} else {}) + Strings(xs)
  {
    var ys := [x] + xs;
    forall t | t in Strings(xs)
      ensures t in Strings(ys)
    {
      var i :| 0 <= i < |xs| && xs[i] == Str(t);
      assert ys[i + 1] == Str(t);
    }
    forall t | t in Strings(ys)
      ensures t in (if x.Str? then {x.s} else {}) + Strings(xs)
    {
      var i :| 0 <= i < |ys| && ys[i] == Str(t);
      if i > 0 { assert xs[i - 1] == Str(t); }
    }
    if x.Str? { assert ys[0] == Str(x.s); }
  }

  lemma StringsOfSnoc(xs: seq<Json>, t: string)
    ensures Strings(xs + [Str(t)]) == Strings(xs) + {t}
  {
    var ys := xs + [Str(t)];
    forall u | u in Strings(xs)
      ensures u in Strings(ys)
    {
      var i :| 0 <= i < |xs| && xs[i] == Str(u);
      assert ys[i] == Str(u);
    }
    assert ys[|xs|] == Str(t);
  }

  lemma HasString(xs: seq<Json>, t: string)
    ensures Str(t) in xs <==> t in Strings(xs)
  {
    if Str(t) in xs {
      var i :| 0 <= i < |xs| && xs[i] == Str(t);
      assert t in Strings(xs);
    }
  }

  // ----- allowing null at one node -----

  /** Schemas of the shape every draft of JSON Schema asks for: enum entries are scalars, type lists name a type. */
  predicate ScalarEnum(m: map<string, Json>) {
    HasEnum(m) ==> forall e :: e in m["enum"].items ==> Scalar(e)
  }

  predicate EmptyTypeList(m: map<string, Json>) {
    "type" in m && m["type"].Arr? && Strings(m["type"].items) == {}
  }

  lemma NullableTypeReads(m: map<string, Json>)
    ensures
      var n := NullableType(m);
      && (NamesTypes(n) <==> NamesTypes(m) || EmptyTypeList(m))
      && (NamesTypes(m) ==> Types(n) == Types(m) + {"null"})
      && (EmptyTypeList(m) ==> Types(n) == {"null"})
      && (forall k :: k != "type" ==> (k in n <==> k in m) && (k in m ==> n[k] == m[k]))
  {
    if "type" in m {
      match m["type"]
      case Str(t) =>
        StringsOfSnoc([Str(t)], "null");
        StringsOfSnoc([], t);
        assert [] + [Str(t)] == [Str(t)];
        assert [Str(t)] + [Str("null")] == [Str(t), Str("null")];
      case Arr(ts) =>
        HasString(ts, "null");
        StringsOfSnoc(ts, "null");
      case _ =>
    }
  }

  /** What the null-allowing edit does to the two clauses it touches. */
  lemma NullableReads(m: map<string, Json>)
    ensures
      var n := NullableType(NullableEnum(m));
      && (HasEnum(n) <==> HasEnum(m))
      && (HasEnum(m) ==> forall e :: e in n["enum"].items <==> e in m["enum"].items || e == Null)
      && (NamesTypes(n) <==> NamesTypes(m) || EmptyTypeList(m))
      && (NamesTypes(m) ==> Types(n) == Types(m) + {"null"})
      && (EmptyTypeList(m) ==> Types(n) == {"null"})
      && (forall k :: k != "enum" && k != "type" ==> (k in n <==> k in m) && (k in m ==> n[k] == m[k]))
      && Properties(n) == Properties(m) && Required(n) == Required(m)
  {
    hide NullableType, Strings;
    NullableTypeReads(NullableEnum(m));
  }

  /** Null is taken, and nothing else is newly taken. */
  lemma AllowNullAdmits(s: Json, v: Json)
    requires Accepts(AllowNull(s), v) && v != Null
    ensures Accepts(s, v)
  {
    if s.Obj? { NullableReads(s.fields); }
  }

  /** The edit keeps whatever was accepted, except where a type list naming no type is suddenly read as "null only". */
  lemma AllowNullKeeps(s: Json, v: Json)
    requires Accepts(s, v)
    requires s.Obj? && EmptyTypeList(s.fields) ==> v == Null
    ensures Accepts(AllowNull(s), v)
  {
    if s.Obj? {
      NullableReads(s.fields);
      var n := AllowNull(s).fields;
      assert MatchesTypes(v, n) by {
        if NamesTypes(s.fields) {
          var t :| t in Types(s.fields) && MatchesType(v, t);
          assert t in Types(n);
        } else if EmptyTypeList(s.fields) {
          assert "null" in Types(n) && MatchesType(v, "null");
        }
      }
    }
  }

  /**
   * A type list that names no type, where a value other than null is accepted:
   * without an enum true is, with one a listed value.
   */
  predicate NullUnsafe(s: Json) {
    && s.Obj? && EmptyTypeList(s.fields)
    && (HasEnum(s.fields) ==> exists e :: e in s.fields["enum"].items && e != Null && Accepts(s, e))
  }

  /** Exactly when the edit keeps every accepted value. */
  lemma AllowNullKeepsIff(s: Json)
    ensures (forall v :: Accepts(s, v) ==> Accepts(AllowNull(s), v)) <==> !NullUnsafe(s)
  {
    if s.Obj? && EmptyTypeList(s.fields) {
      NullableReads(s.fields);
      if HasEnum(s.fields) {
        if e :| e in s.fields["enum"].items && e != Null && Accepts(s, e) {
          assert !Accepts(AllowNull(s), e);
        } else {
          forall v | Accepts(s, v) ensures Accepts(AllowNull(s), v) { AllowNullKeeps(s, v); }
        }
      } else {
        assert Accepts(s, Bool(true)) && !Accepts(AllowNull(s), Bool(true));
      }
    } else {
      forall v | Accepts(s, v) ensures Accepts(AllowNull(s), v) { AllowNullKeeps(s, v); }
    }
  }

  // ----- relaxing a whole schema -----

  predicate ScalarEnums(s: Json) {
    s.Obj? ==>
      && ScalarEnum(s.fields)
      && (forall k :: k in Properties(s.fields) ==> ScalarEnums(Properties(s.fields)[k]))
      && ("items" in s.fields ==> ScalarEnums(s.fields["items"]))
  }

  predicate RequiredListed(s: Json) {
    s.Obj? ==>
      && Required(s.fields) <= Properties(s.fields).Keys
      && (forall k :: k in Properties(s.fields) ==> RequiredListed(Properties(s.fields)[k]))
      && ("items" in s.fields ==> RequiredListed(s.fields["items"]))
  }

  /**
   * Somewhere in the value an optional field holds something other than null
   * under a type list that names no type.
   */
  predicate Loses(s: Json, v: Json)
    decreases v
  {
    && s.Obj?
    && (|| (v.Obj? && exists k :: k in v.fields && k in Properties(s.fields) && LosesField(s.fields, k, v))
        || (v.Arr? && "items" in s.fields && exists i :: 0 <= i < |v.items| && Loses(s.fields["items"], v.items[i])))
  }

  predicate LosesField(m: map<string, Json>, k: string, v: Json)
    requires v.Obj? && k in v.fields && k in Properties(m)
    decreases v, 0
  {
    var p := Properties(m)[k];
    Loses(p, v.fields[k]) || (k !in Required(m) && v.fields[k] != Null && p.Obj? && EmptyTypeList(p.fields))
  }

  /** An accepted value stays accepted exactly unless the relaxed schema loses it that way. */
  lemma {:induction false} RelaxLosesIff(s: Json, v: Json)
    requires Accepts(s, v)
    ensures Accepts(Relax(s), v) <==> !Loses(s, v)
    decreases v
  {
    if s.Obj? {
      hide EmptyTypeList, FieldsAllowed, MatchesTypes, MatchesEnum;
      var m, n := s.fields, Relax(s).fields;
      RelaxNode(s, v);
      RelaxReads(s);
      if v.Obj? {
        forall k | k in v.fields && k in Properties(m)
          ensures Accepts(Properties(n)[k], v.fields[k]) <==> !LosesField(m, k, v)
        {
          RelaxLosesIff(Properties(m)[k], v.fields[k]);
          RelaxField(m, k, v);
        }
      }
      if v.Arr? && "items" in m {
        forall i | 0 <= i < |v.items|
          ensures Accepts(n["items"], v.items[i]) <==> !Loses(m["items"], v.items[i])
        {
          RelaxLosesIff(m["items"], v.items[i]);
        }
      }
    }
  }

  lemma RelaxReads(s: Json)
    requires s.Obj?
    ensures
      var m, n := s.fields, Relax(s).fields;
      && (forall k :: k != "properties" && k != "items" ==> (k in n <==> k in m) && (k in m ==> n[k] == m[k]))
      && Properties(n).Keys == Properties(m).Keys && ("items" in n <==> "items" in m)
           && ("items" in m ==> n["items"] == Relax(m["items"]))
      && (forall k :: k in Properties(m) ==>
            Properties(n)[k] == if k in Required(m) then Relax(Properties(m)[k])
                else AllowNull(Relax(Properties(m)[k])))
  {
    hide AllowNull, Strings;
  }

  /** Relaxing a node leaves its own clauses alone. */
  lemma RelaxNode(s: Json, v: Json)
    requires s.Obj?
    ensures
      var m, n := s.fields, Relax(s).fields;
      && (MatchesEnum(v, n) <==> MatchesEnum(v, m)) && (MatchesTypes(v, n) <==> MatchesTypes(v, m))
      && (v.Obj? ==> (FieldsAllowed(v.fields.Keys, n) <==> FieldsAllowed(v.fields.Keys, m)))
  {
    RelaxReads(s);
    var m, n := s.fields, Relax(s).fields;
    hide Relax, AllowNull, MatchesType, Strings, Properties;
    assert Required(n) == Required(m) && HasEnum(n) == HasEnum(m) && NamesTypes(n) == NamesTypes(m);
    assert NamesTypes(m) ==> Types(n) == Types(m);
  }

  lemma RelaxField(m: map<string, Json>, k: string, v: Json)
    requires v.Obj? && k in v.fields && k in Properties(m)
    requires var p := Properties(m)[k];
             && Accepts(p, v.fields[k])
             && (Accepts(Relax(p), v.fields[k]) <==> !Loses(p, v.fields[k]))
    ensures
      var p := Properties(m)[k];
      Accepts(if k in Required(m) then Relax(p) else AllowNull(Relax(p)), v.fields[k]) <==> !LosesField(m, k, v)
  {
    var p, x := Properties(m)[k], v.fields[k];
    if k !in Required(m) {
      assert p.Obj? ==> (EmptyTypeList(Relax(p).fields) <==> EmptyTypeList(p.fields));
      if Accepts(AllowNull(Relax(p)), x) && x != Null { AllowNullAdmits(Relax(p), x); }
      if Accepts(Relax(p), x) && (x == Null || !(p.Obj? && EmptyTypeList(p.fields))) { AllowNullKeeps(Relax(p), x); }
      if p.Obj? && EmptyTypeList(p.fields) && x != Null { NullableReads(Relax(p).fields); }
    }
  }

  // ----- which schemas lose something -----

  /** One value of every kind but objects. */
  const SAMPLES: seq<Json> := [Null, Bool(true), Num("0"), Str(""), Arr([])]

  /** The node itself takes objects, if the values required of their fields exist. */
  predicate TakesObjects(m: map<string, Json>) {
    && !HasEnum(m) && MatchesTypes(Obj(map[]), m)
    && ("additionalProperties" in m && m["additionalProperties"] == Bool(false) ==> Required(m) <= Properties(m).Keys)
  }

  /** Some value is accepted. */
  predicate Fits(s: Json) {
    s.Obj? ==>
      var m := s.fields;
      if HasEnum(m) then exists e :: e in m["enum"].items && Accepts(s, e)
      else (exists x :: x in SAMPLES && MatchesTypes(x, m))
           || (TakesObjects(m) && forall r :: r in Required(m) && r in Properties(m) ==> Fits(Properties(m)[r]))
  }

  /** Some object with the field is accepted, if some value of that field is. */
  predicate TakesField(m: map<string, Json>, k: string) {
    TakesObjects(m) && forall r :: r in Required(m) && r in Properties(m) && r != k ==> Fits(Properties(m)[r])
  }

  predicate TakesLists(m: map<string, Json>) {
    !HasEnum(m) && MatchesTypes(Arr([]), m)
  }

  /**
   * The schema accepts an object with an optional property of an unsafe schema,
   * or reaches such a node through fields and list items it accepts, or lists a
   * value that is lost.
   */
  predicate RelaxBreaks(s: Json) {
    && s.Obj?
    && var m := s.fields;
       || (HasEnum(m) && exists e :: e in m["enum"].items && Accepts(s, e) && Loses(s, e))
       || (exists k :: k in Properties(m) && TakesField(m, k)
                       && (RelaxBreaks(Properties(m)[k]) || (k !in Required(m) && NullUnsafe(Properties(m)[k]))))
       || ("items" in m && TakesLists(m) && RelaxBreaks(m["items"]))
  }

  lemma {:induction false} AcceptedFits(s: Json, v: Json)
    requires Accepts(s, v)
    ensures Fits(s)
    decreases v
  {
    if s.Obj? && !HasEnum(s.fields) {
      if v.Obj? {
        ObjectsAlike(v, s.fields);
        forall r | r in Required(s.fields) && r in Properties(s.fields)
          ensures Fits(Properties(s.fields)[r])
        {
          AcceptedFits(Properties(s.fields)[r], v.fields[r]);
        }
      } else {
        SampleAlike(v, s.fields);
      }
    }
  }

  lemma ObjectsAlike(v: Json, m: map<string, Json>)
    requires v.Obj?
    ensures MatchesTypes(v, m) <==> MatchesTypes(Obj(map[]), m)
  {
    assert forall t :: MatchesType(v, t) <==> MatchesType(Obj(map[]), t);
  }

  lemma ListsAlike(v: Json, m: map<string, Json>)
    requires v.Arr?
    ensures MatchesTypes(v, m) <==> MatchesTypes(Arr([]), m)
  {
    assert forall t :: MatchesType(v, t) <==> MatchesType(Arr([]), t);
  }

  lemma SampleAlike(v: Json, m: map<string, Json>)
    requires !v.Obj? && MatchesTypes(v, m)
    ensures exists x :: x in SAMPLES && MatchesTypes(x, m)
  {
    assert SAMPLES[0] == Null && SAMPLES[1] == Bool(true) && SAMPLES[2] == Num("0") && SAMPLES[3] == Str("")
        && SAMPLES[4] == Arr([]);
    var x := match v
      case Null => SAMPLES[0]
      case Bool(_) => SAMPLES[1]
      case Num(_) => SAMPLES[2]
      case Str(_) => SAMPLES[3]
      case Arr(_) => SAMPLES[4];
    assert IsInteger("0");
    assert forall t :: MatchesType(v, t) ==> MatchesType(x, t);
    assert x in SAMPLES && MatchesTypes(x, m);
  }

  /** An accepted value of a schema that some value fits. */
  ghost function Sample(s: Json): (v: Json)
    requires Fits(s)
    ensures Accepts(s, v)
  {
    if !s.Obj? then Null
    else
      var m := s.fields;
      if HasEnum(m) then
        var e :| e in m["enum"].items && Accepts(s, e); e
      else if exists x :: x in SAMPLES && MatchesTypes(x, m) then
        var x :| x in SAMPLES && MatchesTypes(x, m); x
      else
        var f := map r | r in Required(m) :: if r in Properties(m) then Sample(Properties(m)[r]) else Null;
        ObjectsAlike(Obj(f), m);
        Obj(f)
  }

  /** The schema accepts an object whose field `k` is `x`. */
  lemma ObjectWith(s: Json, k: string, x: Json) returns (v: Json)
    requires s.Obj? && k in Properties(s.fields) && TakesField(s.fields, k) && Accepts(Properties(s.fields)[k], x)
    ensures Accepts(s, v) && v.Obj? && k in v.fields && v.fields[k] == x
  {
    var m := s.fields;
    var f := map r | r in Required(m) + {k} :: if r == k then x else if r in Properties(m) then Sample(Properties(m)[r])
        else Null;
    v := Obj(f);
    ObjectsAlike(v, m);
  }

  /** A schema that breaks accepts a value that relaxing loses. */
  lemma {:induction false} LostValue(s: Json) returns (v: Json)
    requires RelaxBreaks(s)
    ensures Accepts(s, v) && Loses(s, v)
    decreases s
  {
    var m := s.fields;
    if HasEnum(m) && exists e :: e in m["enum"].items && Accepts(s, e) && Loses(s, e) {
      v :| v in m["enum"].items && Accepts(s, v) && Loses(s, v);
    } else if "items" in m && TakesLists(m) && RelaxBreaks(m["items"]) {
      var x := LostValue(m["items"]);
      v := Arr([x]);
      ListsAlike(v, m);
      assert v.items[0] == x;
    } else {
      var k :| k in Properties(m) && TakesField(m, k)
               && (RelaxBreaks(Properties(m)[k]) || (k !in Required(m) && NullUnsafe(Properties(m)[k])));
      var p := Properties(m)[k];
      var x;
      if RelaxBreaks(p) {
        x := LostValue(p);
      } else if HasEnum(p.fields) {
        x :| x in p.fields["enum"].items && x != Null && Accepts(p, x);
      } else {
        x := Bool(true);
      }
      v := ObjectWith(s, k, x);
      assert LosesField(m, k, v);
    }
  }

  lemma {:induction false} LossBreaks(s: Json, v: Json)
    requires Accepts(s, v) && Loses(s, v)
    ensures RelaxBreaks(s)
    decreases v
  {
    var m := s.fields;
    if HasEnum(m) {
      assert v in m["enum"].items;
    } else if v.Arr? {
      var i :| 0 <= i < |v.items| && Loses(m["items"], v.items[i]);
      LossBreaks(m["items"], v.items[i]);
      ListsAlike(v, m);
    } else {
      var k :| k in v.fields && k in Properties(m) && LosesField(m, k, v);
      ObjectsAlike(v, m);
      forall r | r in Required(m) && r in Properties(m) && r != k
        ensures Fits(Properties(m)[r])
      {
        AcceptedFits(Properties(m)[r], v.fields[r]);
      }
      var p := Properties(m)[k];
      if Loses(p, v.fields[k]) { LossBreaks(p, v.fields[k]); }
      assert TakesField(m, k);
    }
  }

  /** Exactly when everything the original accepts, the relaxed schema accepts. */
  lemma RelaxKeepsIff(s: Json)
    ensures (forall v :: Accepts(s, v) ==> Accepts(Relax(s), v)) <==> !RelaxBreaks(s)
  {
    if RelaxBreaks(s) {
      var v := LostValue(s);
      RelaxLosesIff(s, v);
    } else {
      forall v | Accepts(s, v)
        ensures Accepts(Relax(s), v)
      {
        RelaxLosesIff(s, v);
        if Loses(s, v) { LossBreaks(s, v); }
      }
    }
  }

  /** An optional property whose type list is empty: an object that has it is accepted before and not after. */
  lemma RelaxCanLose()
    ensures
      var s := Obj(map["properties" := Obj(map["a" := Obj(map["type" := Arr([])])])]);
      var v := Obj(map["a" := Num("1")]);
      Accepts(s, v) && !Accepts(Relax(s), v)
  {
    var p := Obj(map["type" := Arr([])]);
    var s := Obj(map["properties" := Obj(map["a" := p])]);
    var v := Obj(map["a" := Num("1")]);
    assert Properties(s.fields) == map["a" := p] && Accepts(p, Num("1"));
    assert LosesField(s.fields, "a", v);
    RelaxLosesIff(s, v);
  }

  /** The same property of a schema for strings only: nothing is lost, there being no object to lose. */
  lemma UnsafeOutOfReach()
    ensures
      var s := Obj(map["type" := Str("string"), "properties" := Obj(map["a" := Obj(map["type" := Arr([])])])]);
      !RelaxBreaks(s)
  {
    var s := Obj(map["type" := Str("string"), "properties" := Obj(map["a" := Obj(map["type" := Arr([])])])]);
    assert !MatchesTypes(Obj(map[]), s.fields);
  }

  /** The value with null optional fields dropped, at every depth the schema describes. */
  function DropNulls(s: Json, v: Json): Json
    decreases v
  {
    if !s.Obj? then v
    else match v
      case Obj(f) =>
        var props := Properties(s.fields);
        Obj(map k | k in f && !(k in props && k !in Required(s.fields) && f[k] == Null)
              :: if k in props then DropNulls(props[k], f[k]) else f[k])
      case Arr(xs) =>
        if "items" in s.fields then Arr(seq(|xs|, i requires 0 <= i < |xs| => DropNulls(s.fields["items"], xs[i])))
            else v
      case _ => v
  }

  lemma DropKeepsKind(s: Json, v: Json, m: map<string, Json>)
    ensures MatchesTypes(v, m) ==> MatchesTypes(DropNulls(s, v), m)
    ensures MatchesEnum(v, m) && ScalarEnum(m) ==> MatchesEnum(DropNulls(s, v), m)
    ensures DropNulls(s, v) == Null <==> v == Null
  {
    var d := DropNulls(s, v);
    assert forall t :: MatchesType(d, t) == MatchesType(v, t);
  }

  /** Whatever the relaxed schema accepts, the original accepts once null optional fields are dropped. */
  lemma {:induction false} RelaxAdmits(s: Json, v: Json)
    requires ScalarEnums(s) && Accepts(Relax(s), v)
    ensures Accepts(s, DropNulls(s, v))
    decreases s
  {
    if s.Obj? {
      var m, n, d := s.fields, Relax(s).fields, DropNulls(s, v);
      DropKeepsKind(s, v, m);
      if v.Obj? {
        forall k | k in d.fields && k in Properties(m)
          ensures Accepts(Properties(m)[k], d.fields[k])
        {
          var p := Properties(m)[k];
          assert Accepts(Properties(n)[k], v.fields[k]);
          if k !in Required(m) { AllowNullAdmits(Relax(p), v.fields[k]); }
          RelaxAdmits(p, v.fields[k]);
        }
      }
      if v.Arr? && "items" in m {
        forall i | 0 <= i < |d.items|
          ensures Accepts(m["items"], d.items[i])
        {
          RelaxAdmits(m["items"], v.items[i]);
        }
      }
    }
  }

  // ----- closing a whole schema -----

  lemma ShutReads(m: map<string, Json>)
    ensures
      var n := Shut(m);
      && (forall k :: k !in {"additionalProperties", "required"} ==> (k in n <==> k in m) && (k in m ==> n[k] == m[k]))
      && Required(n) == (if TypeIsObject(m) && HasProperties(m) then Properties(m).Keys else Required(m))
      && ("additionalProperties" in m ==>
           "additionalProperties" in n && n["additionalProperties"] == m["additionalProperties"])
  {
  }

  lemma UpdatedReads(m: map<string, Json>, a: string, x: Json, b: string, y: Json)
    requires a != b
    ensures forall k :: k != a && k != b ==>
              (k in m[a := x][b := y] <==> k in m) && (k in m ==> m[a := x][b := y][k] == m[k])
    ensures m[a := x][b := y][a] == x && m[a := x][b := y][b] == y
  {
  }

  lemma CloseRewrites(s: Json)
    requires s.Obj?
    ensures
      var m, n := s.fields, Close(s).fields;
      && (forall k :: k != "properties" && k != "items" ==>
           (k in n <==> k in Shut(m)) && (k in Shut(m) ==> n[k] == Shut(m)[k]))
      && (HasProperties(m) ==> "properties" in n && n["properties"] == Obj(CloseProperties(s)))
      && ("items" in m ==> "items" in n && n["items"] == Close(m["items"]))
      && (!HasProperties(m) ==>
           ("properties" in n <==> "properties" in Shut(m))
           && ("properties" in n ==> n["properties"] == Shut(m)["properties"]))
      && ("items" !in m ==> ("items" in n <==> "items" in Shut(m)))
  {
    hide Shut, AllowNull, CloseProperties, HasProperties;
    if HasProperties(s.fields) && "items" in s.fields {
      UpdatedReads(Shut(s.fields), "properties", Obj(CloseProperties(s)), "items", Close(s.fields["items"]));
    }
  }

  lemma CloseReads(s: Json)
    requires s.Obj?
    ensures
      var m, n := s.fields, Close(s).fields;
      && (forall k :: k !in {"additionalProperties", "required", "properties", "items"} ==>
           (k in n <==> k in m) && (k in m ==> n[k] == m[k]))
      && (HasProperties(n) <==> HasProperties(m)) && ("properties" in n <==> "properties" in m)
      && (HasProperties(m) ==> Properties(n) == CloseProperties(s))
      && Properties(n).Keys == Properties(m).Keys
      && Required(n) == (if TypeIsObject(m) && HasProperties(m) then Properties(m).Keys else Required(m))
      && ("items" in n <==> "items" in m) && ("items" in m ==> n["items"] == Close(m["items"]))
      && ("additionalProperties" in m ==>
           "additionalProperties" in n && n["additionalProperties"] == m["additionalProperties"])
  {
    hide Shut, AllowNull, Strings, TypeIsObject, Close;
    ShutReads(s.fields);
    CloseRewrites(s);
  }

  /** Whatever the closed schema accepts, the original accepts once null optional fields are dropped. */
  lemma {:induction false} CloseAdmits(s: Json, v: Json)
    requires ScalarEnums(s) && RequiredListed(s) && Accepts(Close(s), v)
    ensures Accepts(s, DropNulls(s, v))
    decreases s, 1
  {
    if s.Obj? {
      CloseReads(s);
      var m, d := s.fields, DropNulls(s, v);
      DropKeepsKind(s, v, m);
      if v.Obj? {
        forall k | k in d.fields && k in Properties(m)
          ensures Accepts(Properties(m)[k], d.fields[k])
        {
          CloseAdmitsField(s, v, k);
        }
      }
      if v.Arr? && "items" in m {
        forall i | 0 <= i < |d.items|
          ensures Accepts(m["items"], d.items[i])
        {
          CloseAdmits(m["items"], v.items[i]);
        }
      }
    }
  }

  lemma {:induction false} CloseAdmitsField(s: Json, v: Json, k: string)
    requires s.Obj? && ScalarEnums(s) && RequiredListed(s) && v.Obj? && Accepts(Close(s), v)
    requires DropNulls(s, v).Obj? && k in DropNulls(s, v).fields && k in Properties(s.fields)
    ensures Accepts(Properties(s.fields)[k], DropNulls(s, v).fields[k])
    decreases s, 0
  {
    CloseReads(s);
    var m, n := s.fields, Close(s).fields;
    DropKeepsKind(s, v, m);
    var p := Properties(m)[k];
    assert Accepts(Properties(n)[k], v.fields[k]);
    if k !in Required(m) { AllowNullAdmits(Close(p), v.fields[k]); }
    CloseAdmits(p, v.fields[k]);
  }

  lemma ClosedReads(m: map<string, Json>)
    requires "type" in m && m["type"] == Str("object") && HasProperties(m) && "additionalProperties" !in m
    ensures
      var n := Close(Obj(m)).fields;
      && NamesTypes(n) && Types(n) == {"object"} && HasEnum(n) == HasEnum(m) && (HasEnum(m) ==> n["enum"] == m["enum"])
      && "additionalProperties" in n && n["additionalProperties"] == Bool(false)
      && Required(n) == Properties(m).Keys && Properties(n) == CloseProperties(Obj(m))
  {
    CloseReads(Obj(m));
    CloseRewrites(Obj(m));
    hide Close, CloseProperties, Strings;
  }

  /**
   * A closed object schema takes only objects with all its properties and no other,
   * each of them as its own closed schema has it, or null where it was optional.
   */
  lemma ClosedAccepts(m: map<string, Json>, v: Json)
    requires "type" in m && m["type"] == Str("object") && HasProperties(m) && "additionalProperties" !in m
    ensures Accepts(Close(Obj(m)), v) <==>
            && v.Obj? && MatchesEnum(v, m) && v.fields.Keys == Properties(m).Keys
            && forall k :: k in Properties(m) ==>
                 Accepts(if k in Required(m) then Close(Properties(m)[k])
                     else AllowNull(Close(Properties(m)[k])), v.fields[k])
  {
    ClosedReads(m);
    ShutAccepts(Close(Obj(m)), v);
    hide Close, Types, Required, AllowNull, HasEnum, NamesTypes, MatchesType;
    assert CloseProperties(Obj(m)).Keys == Properties(m).Keys;
  }

  lemma ShutAccepts(s: Json, v: Json)
    requires s.Obj? && NamesTypes(s.fields) && Types(s.fields) == {"object"}
    requires "additionalProperties" in s.fields && s.fields["additionalProperties"] == Bool(false)
    requires Required(s.fields) == Properties(s.fields).Keys
    ensures Accepts(s, v) <==>
            && v.Obj? && MatchesEnum(v, s.fields) && v.fields.Keys == Properties(s.fields).Keys
            && forall k :: k in Properties(s.fields) ==> Accepts(Properties(s.fields)[k], v.fields[k])
  {
    hide Types, Required, NamesTypes;
  }

  /** Other schemas keep what they say of unknown and required fields. */
  lemma OthersStayOpen(m: map<string, Json>, k: string)
    requires k in {"additionalProperties", "required"} && !("type" in m && m["type"] == Str("object"))
    ensures (k in Close(Obj(m)).fields <==> k in m) && (k in m ==> Close(Obj(m)).fields[k] == m[k])
  {
    CloseRewrites(Obj(m));
  }

  // ----- closing is a fixed point, also for relaxing -----

  lemma AllowNullTwice(s: Json)
    ensures AllowNull(AllowNull(s)) == AllowNull(s)
  {
  }

  /** Null edits and the recursive rewrites do not interfere once the schema is closed. */
  ghost predicate Fixed(c: Json) {
    Close(c) == c && Relax(c) == c
  }

  ghost predicate ChildrenFixed(m: map<string, Json>) {
    && (forall k :: k in Properties(m) ==>
         Fixed(Properties(m)[k]) && (k !in Required(m) ==> AllowNull(Properties(m)[k]) == Properties(m)[k]))
    && ("items" in m ==> Fixed(m["items"]))
  }

  lemma NodeFixed(m: map<string, Json>)
    requires ChildrenFixed(m)
    requires Shut(m) == m
    ensures Fixed(Obj(m))
  {
    var s := Obj(m);
    if HasProperties(m) {
      assert CloseProperties(s) == Properties(m);
      var props := m["properties"].fields;
      assert (map k | k in props :: if k in Required(m) then Relax(props[k]) else AllowNull(Relax(props[k]))) == props;
    }
  }

  lemma ShutTwice(m: map<string, Json>)
    ensures Shut(Shut(m)) == Shut(m)
  {
  }

  /** Closing is idempotent, relaxing a closed schema changes nothing, and both survive the null edit. */
  lemma {:induction false} CloseSettles(s: Json)
    ensures Fixed(Close(s)) && Fixed(AllowNull(Close(s)))
    decreases s
  {
    if s.Obj? {
      hide AllowNull, Shut, Relax, Fixed, ChildrenFixed;
      CloseReads(s);
      var m, n := s.fields, Close(s).fields;
      forall k | k in Properties(m)
        ensures Fixed(Close(Properties(m)[k])) && Fixed(AllowNull(Close(Properties(m)[k])))
      {
        CloseSettles(Properties(m)[k]);
      }
      if "items" in m { CloseSettles(m["items"]); }
      ClosedChildrenFixed(s);
      ClosedIsShut(s);
      NodeFixed(n);
      NullFixed(n);
    }
  }

  lemma NullFixed(n: map<string, Json>)
    requires ChildrenFixed(n)
    ensures Fixed(AllowNull(Obj(n)))
  {
    var a := AllowNull(Obj(n)).fields;
    NullableReads(n);
    assert !TypeIsObject(a);
    NodeFixed(a);
  }

  lemma ClosedChildrenFixed(s: Json)
    requires s.Obj?
    requires forall k :: k in Properties(s.fields) ==>
              Fixed(Close(Properties(s.fields)[k])) && Fixed(AllowNull(Close(Properties(s.fields)[k])))
    requires "items" in s.fields ==> Fixed(Close(s.fields["items"]))
    ensures ChildrenFixed(Close(s).fields)
  {
    hide Close, AllowNull, Fixed;
    CloseReads(s);
    forall k | k in Properties(s.fields) && k !in Required(s.fields)
      ensures AllowNull(AllowNull(Close(Properties(s.fields)[k]))) == AllowNull(Close(Properties(s.fields)[k]))
    {
      AllowNullTwice(Close(Properties(s.fields)[k]));
    }
  }

  lemma ClosedIsShut(s: Json)
    requires s.Obj?
    ensures Shut(Close(s).fields) == Close(s).fields
  {
    CloseReads(s);
    ShutTwice(s.fields);
  }
}

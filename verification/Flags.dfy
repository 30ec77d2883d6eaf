/** The flag-override codec of internal/flags/flags.go, over an arbitrary registry.  JSON
    text is modelled by the values it denotes. */
module Flags {
  import opened Wrappers

  type Key = string

  datatype Kind = KindBool | KindInt | KindFloat | KindString

  datatype Definition = Definition(kind: Kind, overridable: bool)

  // The flag registry; the percentages and the fallback model carry a constraint.
  datatype Registry = Registry(defs: map<Key, Definition>, percentages: set<Key>, fallbackModel: Key)

  type Int64 = x: int | -0x8000_0000_0000_0000 <= x < 0x8000_0000_0000_0000

  datatype Overrides = Overrides(
    bools: map<Key, bool>,
    ints: map<Key, Int64>,
    floats: map<Key, real>,
    strings: map<Key, string>)

  const NONE := Overrides(map[], map[], map[], map[])

  // One JSON value.  A number remembers whether it is written as a plain integer.
  datatype Json =
    | JNull
    | JBool(b: bool)
    | JInteger(n: int)
    | JReal(r: real)
    | JString(s: string)
    | JCompound

  datatype Raw = Empty | Null | Malformed | Object(fields: map<Key, Json>)

  datatype FlagError = UnknownKey | NotOverridable | WrongKind | InvalidValue | DecodeFailed | WrongType

  // -------------------------------------------------------------------- validation ----

  predicate Blank(s: string) {
    forall c | c in s :: c == ' ' || c == '\t' || c == '\n' || c == '\r' || c as int == 11 || c as int == 12
  }

  /** What a constrained flag admits: a percentage from 0 to 100, and a fallback model that is not
      all white space. */
  lemma AdmittedValues(g: Registry, o: Overrides, k: Key)
    ensures k in g.percentages && k in o.ints ==> (Admits(g, o, k, KindInt) <==> 0 <= o.ints[k] <= 100)
    ensures k == g.fallbackModel && k in o.strings ==>
              (Admits(g, o, k, KindString) <==> exists c | c in o.strings[k] :: c != ' ' && !(9 <= c as int <= 13))
    ensures k !in g.percentages ==> Admits(g, o, k, KindInt)
    ensures k != g.fallbackModel ==> Admits(g, o, k, KindString)
    ensures Admits(g, o, k, KindBool) && Admits(g, o, k, KindFloat)
  { }

  predicate MayHold(g: Registry, k: Key, kind: Kind) {
    k in g.defs && g.defs[k].overridable && g.defs[k].kind == kind
  }

  predicate Admits(g: Registry, o: Overrides, k: Key, kind: Kind) {
    match kind
    case KindInt => k in g.percentages && k in o.ints ==> 0 <= o.ints[k] <= 100
    case KindString => k == g.fallbackModel && k in o.strings ==> !Blank(o.strings[k])
    case _ => true
  }

  predicate Passes(g: Registry, o: Overrides, k: Key, kind: Kind) {
    MayHold(g, k, kind) && Admits(g, o, k, kind)
  }

  predicate AllPass(g: Registry, o: Overrides, keys: set<Key>, kind: Kind) {
    forall k | k in keys :: Passes(g, o, k, kind)
  }

  // What ValidateOverrides accepts: every key of every map is registered, overridable, of
  // the map's kind, and holds a value its flag admits.
  predicate Valid(g: Registry, o: Overrides) {
    && AllPass(g, o, o.bools.Keys, KindBool)
    && AllPass(g, o, o.ints.Keys, KindInt)
    && AllPass(g, o, o.floats.Keys, KindFloat)
    && AllPass(g, o, o.strings.Keys, KindString)
  }

  predicate Disjoint(o: Overrides) {
    && o.bools.Keys !! o.ints.Keys && o.bools.Keys !! o.floats.Keys && o.bools.Keys !! o.strings.Keys
    && o.ints.Keys !! o.floats.Keys && o.ints.Keys !! o.strings.Keys && o.floats.Keys !! o.strings.Keys
  }

  lemma KindsAreApart(g: Registry, o: Overrides, a: set<Key>, kind: Kind, b: set<Key>, other: Kind)
    requires AllPass(g, o, a, kind) && AllPass(g, o, b, other) && kind != other
    ensures a !! b
  {
    forall k | k in a ensures k !in b {
      assert Passes(g, o, k, kind);
      assert !Passes(g, o, k, other);
    }
  }

  /** A set that passes has no key in two maps: a key's kind admits only one of them. */
  lemma ValidIsDisjoint(g: Registry, o: Overrides)
    requires Valid(g, o)
    ensures Disjoint(o)
  {
    KindsAreApart(g, o, o.bools.Keys, KindBool, o.ints.Keys, KindInt);
    KindsAreApart(g, o, o.bools.Keys, KindBool, o.floats.Keys, KindFloat);
    KindsAreApart(g, o, o.bools.Keys, KindBool, o.strings.Keys, KindString);
    KindsAreApart(g, o, o.ints.Keys, KindInt, o.floats.Keys, KindFloat);
    KindsAreApart(g, o, o.ints.Keys, KindInt, o.strings.Keys, KindString);
    KindsAreApart(g, o, o.floats.Keys, KindFloat, o.strings.Keys, KindString);
  }

  // A map of that kind holds the key.
  predicate Holds(o: Overrides, k: Key, kind: Kind) {
    match kind
    case KindBool => k in o.bools
    case KindInt => k in o.ints
    case KindFloat => k in o.floats
    case KindString => k in o.strings
  }

  // The fault a validation error names is there, at some key.
  predicate FaultAt(g: Registry, o: Overrides, k: Key, kind: Kind, err: FlagError) {
    Holds(o, k, kind) && match err
      case UnknownKey => k !in g.defs
      case NotOverridable => k in g.defs && !g.defs[k].overridable
      case WrongKind =>
        (k in g.defs && g.defs[k].kind != kind) || exists other: Kind :: other != kind && Holds(o, k, other)
      case InvalidValue => !Admits(g, o, k, kind)
      case _ => false
  }

  ghost predicate Fault(g: Registry, o: Overrides, err: FlagError) {
    exists k, kind :: FaultAt(g, o, k, kind, err)
  }

  // The closure `check` of ValidateOverrides.
  method CheckKey(g: Registry, seen: set<Key>, k: Key, kind: Kind) returns (err: Option<FlagError>, seen': set<Key>)
    ensures seen' == seen + {k}
    ensures err.None? <==> k !in seen && MayHold(g, k, kind)
    ensures err == Some(WrongKind) ==> k in seen || (k in g.defs && g.defs[k].kind != kind)
    ensures err == Some(UnknownKey) ==> k !in g.defs
    ensures err == Some(NotOverridable) ==> k in g.defs && !g.defs[k].overridable
    ensures err.Some? ==> err.value in {UnknownKey, NotOverridable, WrongKind}
  {
    seen' := seen + {k};
    if k in seen {
      return Some(WrongKind), seen';
    }
    if k !in g.defs {
      return Some(UnknownKey), seen';
    }
    if !g.defs[k].overridable {
      return Some(NotOverridable), seen';
    }
    if g.defs[k].kind != kind {
      return Some(WrongKind), seen';
    }
    return None, seen';
  }

  // One of the four loops of ValidateOverrides.
  method CheckAll(g: Registry, o: Overrides, seen: set<Key>, keys: set<Key>, kind: Kind)
    returns (err: Option<FlagError>, seen': set<Key>)
    requires forall k | k in keys :: Holds(o, k, kind)
    requires forall k | k in seen :: exists other: Kind :: other != kind && Holds(o, k, other)
    ensures err.None? <==> seen !! keys && AllPass(g, o, keys, kind)
    ensures err.None? ==> seen' == seen + keys
    ensures err.Some? ==> Fault(g, o, err.value)
  {
    var left, passed := keys, {};
    seen' := seen;
    while left != {}
      invariant left !! passed && left + passed == keys
      invariant seen !! passed && seen' == seen + passed && AllPass(g, o, passed, kind)
      decreases |left|
    {
      var k :| k in left;
      err, seen' := CheckKey(g, seen', k, kind);
      if err.Some? {
        assert k in keys && !(k !in seen && Passes(g, o, k, kind));
        assert FaultAt(g, o, k, kind, err.value);
        return;
      }
      if !Admits(g, o, k, kind) {
        assert k in keys && !Passes(g, o, k, kind);
        assert FaultAt(g, o, k, kind, InvalidValue);
        return Some(InvalidValue), seen';
      }
      left, passed := left - {k}, passed + {k};
    }
    assert passed == keys;
    return None, seen';
  }

  /** ValidateOverrides accepts exactly the valid sets, and of any other names a fault it has. */
  method ValidateOverrides(g: Registry, o: Overrides) returns (err: Option<FlagError>)
    ensures err.None? <==> Valid(g, o)
    ensures err.Some? ==> Fault(g, o, err.value)
  {
    assert Valid(g, o) ==> Disjoint(o) by {
      if Valid(g, o) { ValidIsDisjoint(g, o); }
    }
    var seen: set<Key> := {};
    err, seen := CheckAll(g, o, seen, o.bools.Keys, KindBool);
    if err.Some? {
      return;
    }
    err, seen := CheckAll(g, o, seen, o.ints.Keys, KindInt);
    if err.Some? {
      return;
    }
    err, seen := CheckAll(g, o, seen, o.floats.Keys, KindFloat);
    if err.Some? {
      return;
    }
    err, seen := CheckAll(g, o, seen, o.strings.Keys, KindString);
  }

  // ----------------------------------------------------------------------- decoding ----

  // encoding/json decodes null into any type, leaving its zero value, and an integer only
  // from a literal in range.
  predicate Decodes(kind: Kind, v: Json) {
    v.JNull? || match kind
      case KindBool => v.JBool?
      case KindInt => v.JInteger? && -0x8000_0000_0000_0000 <= v.n < 0x8000_0000_0000_0000
      case KindFloat => v.JInteger? || v.JReal?
      case KindString => v.JString?
  }

  function AsBool(v: Json): bool { v.JBool? && v.b }

  function AsInt(v: Json): Int64 { if Decodes(KindInt, v) && v.JInteger? then v.n else 0 }

  function AsFloat(v: Json): real { if v.JInteger? then v.n as real else if v.JReal? then v.r else 0.0 }

  function AsString(v: Json): string { if v.JString? then v.s else "" }

  // set: one value decoded into the map of its kind.
  function Set(o: Overrides, k: Key, kind: Kind, v: Json): Overrides
    requires Decodes(kind, v)
  {
    match kind
    case KindBool => o.(bools := o.bools[k := AsBool(v)])
    case KindInt => o.(ints := o.ints[k := AsInt(v)])
    case KindFloat => o.(floats := o.floats[k := AsFloat(v)])
    case KindString => o.(strings := o.strings[k := AsString(v)])
  }

  predicate Readable(g: Registry, k: Key, v: Json) {
    k in g.defs && g.defs[k].overridable && Decodes(g.defs[k].kind, v)
  }

  predicate AllReadable(g: Registry, fields: map<Key, Json>) {
    forall k | k in fields :: Readable(g, k, fields[k])
  }

  predicate OfKind(g: Registry, k: Key, kind: Kind) {
    k in g.defs && g.defs[k].kind == kind
  }

  function BoolsIn(g: Registry, fields: map<Key, Json>): map<Key, bool> {
    map k | k in fields && OfKind(g, k, KindBool) :: AsBool(fields[k])
  }

  function IntsIn(g: Registry, fields: map<Key, Json>): map<Key, Int64> {
    map k | k in fields && OfKind(g, k, KindInt) :: AsInt(fields[k])
  }

  function FloatsIn(g: Registry, fields: map<Key, Json>): map<Key, real> {
    map k | k in fields && OfKind(g, k, KindFloat) :: AsFloat(fields[k])
  }

  function StringsIn(g: Registry, fields: map<Key, Json>): map<Key, string> {
    map k | k in fields && OfKind(g, k, KindString) :: AsString(fields[k])
  }

  // The override set an object denotes: each key in the map of its registered kind.
  function Denoted(g: Registry, fields: map<Key, Json>): Overrides {
    Overrides(BoolsIn(g, fields), IntsIn(g, fields), FloatsIn(g, fields), StringsIn(g, fields))
  }

  // What ParseOverrides accepts, and what it then returns.
  predicate Accepts(g: Registry, raw: Raw) {
    match raw
    case Empty => true
    case Null => true
    case Malformed => false
    case Object(fields) => AllReadable(g, fields) && Valid(g, Denoted(g, fields))
  }

  function Parsed(g: Registry, raw: Raw): Overrides {
    if raw.Object? then Denoted(g, raw.fields) else NONE
  }

  /** No text and a JSON null are both no overrides at all; text that is not JSON is refused. */
  lemma NothingIsNoOverride(g: Registry)
    ensures Accepts(g, Empty) && Parsed(g, Empty) == NONE
    ensures Accepts(g, Null) && Parsed(g, Null) == NONE
    ensures !Accepts(g, Malformed)
  { }

  lemma BoolsPut(g: Registry, fields: map<Key, Json>, k: Key, v: Json)
    ensures OfKind(g, k, KindBool) ==> BoolsIn(g, fields[k := v]) == BoolsIn(g, fields)[k := AsBool(v)]
    ensures !OfKind(g, k, KindBool) ==> BoolsIn(g, fields[k := v]) == BoolsIn(g, fields)
  { }

  lemma IntsPut(g: Registry, fields: map<Key, Json>, k: Key, v: Json)
    ensures OfKind(g, k, KindInt) ==> IntsIn(g, fields[k := v]) == IntsIn(g, fields)[k := AsInt(v)]
    ensures !OfKind(g, k, KindInt) ==> IntsIn(g, fields[k := v]) == IntsIn(g, fields)
  { }

  lemma FloatsPut(g: Registry, fields: map<Key, Json>, k: Key, v: Json)
    ensures OfKind(g, k, KindFloat) ==> FloatsIn(g, fields[k := v]) == FloatsIn(g, fields)[k := AsFloat(v)]
    ensures !OfKind(g, k, KindFloat) ==> FloatsIn(g, fields[k := v]) == FloatsIn(g, fields)
  { }

  lemma StringsPut(g: Registry, fields: map<Key, Json>, k: Key, v: Json)
    ensures OfKind(g, k, KindString) ==> StringsIn(g, fields[k := v]) == StringsIn(g, fields)[k := AsString(v)]
    ensures !OfKind(g, k, KindString) ==> StringsIn(g, fields[k := v]) == StringsIn(g, fields)
  { }

  lemma SetIsDenoted(g: Registry, fields: map<Key, Json>, k: Key, v: Json)
    requires Readable(g, k, v)
    ensures Denoted(g, fields[k := v]) == Set(Denoted(g, fields), k, g.defs[k].kind, v)
  {
    BoolsPut(g, fields, k, v);
    IntsPut(g, fields, k, v);
    FloatsPut(g, fields, k, v);
    StringsPut(g, fields, k, v);
    var kind := g.defs[k].kind;
    assert kind.KindBool? || kind.KindInt? || kind.KindFloat? || kind.KindString?;
  }

  // One turn of the loop of ParseOverrides.
  method DecodeField(g: Registry, ghost done: map<Key, Json>, o: Overrides, k: Key, v: Json)
    returns (r: Result<Overrides, FlagError>)
    requires o == Denoted(g, done)
    ensures r.Ok? <==> Readable(g, k, v)
    ensures r.Ok? ==> r.value == Denoted(g, done[k := v])
    ensures r.Err? ==> match r.error
                       case UnknownKey => k !in g.defs
                       case NotOverridable => k in g.defs && !g.defs[k].overridable
                       case WrongType => k in g.defs && !Decodes(g.defs[k].kind, v)
                       case _ => false
  {
    if k !in g.defs {
      return Err(UnknownKey);
    }
    if !g.defs[k].overridable {
      return Err(NotOverridable);
    }
    if !Decodes(g.defs[k].kind, v) {
      return Err(WrongType);
    }
    SetIsDenoted(g, done, k, v);
    return Ok(Set(o, k, g.defs[k].kind, v));
  }

  lemma TakeOne(fields: map<Key, Json>, left: set<Key>, k: Key)
    requires k in left && left <= fields.Keys
    ensures (fields - left)[k := fields[k]] == fields - (left - {k})
  { }

  method DecodeFields(g: Registry, fields: map<Key, Json>) returns (r: Result<Overrides, FlagError>)
    ensures r.Ok? <==> AllReadable(g, fields)
    ensures r.Ok? ==> r.value == Denoted(g, fields)
    ensures r.Err? ==> ParseFault(g, Object(fields), r.error) && !r.error.InvalidValue?
  {
    var left := fields.Keys;
    assert fields - left == map[];
    NullIsNone(g);
    r := Ok(NONE);
    while left != {}
      invariant left <= fields.Keys
      invariant forall k | k in fields && k !in left :: Readable(g, k, fields[k])
      invariant r.Ok? && r.value == Denoted(g, fields - left)
      decreases |left|
    {
      var k :| k in left;
      r := DecodeField(g, fields - left, r.value, k, fields[k]);
      if r.Err? {
        assert k in fields && !Readable(g, k, fields[k]);
        return;
      }
      TakeOne(fields, left, k);
      left := left - {k};
    }
    assert fields - left == fields;
  }

  // The fault a parse error names is there.
  ghost predicate ParseFault(g: Registry, raw: Raw, err: FlagError) {
    match err
    case DecodeFailed => raw.Malformed?
    case UnknownKey => raw.Object? && exists k | k in raw.fields :: k !in g.defs
    case NotOverridable => raw.Object? && exists k | k in raw.fields :: k in g.defs && !g.defs[k].overridable
    case WrongType =>
      raw.Object? && exists k | k in raw.fields :: k in g.defs && !Decodes(g.defs[k].kind, raw.fields[k])
    case InvalidValue =>
      raw.Object? && AllReadable(g, raw.fields)
      && exists k, kind :: Holds(Denoted(g, raw.fields), k, kind) && !Admits(g, Denoted(g, raw.fields), k, kind)
    case WrongKind => false
  }

  // A set read from an object holds each key once, under its registered kind.
  lemma DenotedFaults(g: Registry, fields: map<Key, Json>, err: FlagError)
    requires AllReadable(g, fields) && Fault(g, Denoted(g, fields), err)
    ensures err.InvalidValue?
    ensures exists k, kind :: Holds(Denoted(g, fields), k, kind) && !Admits(g, Denoted(g, fields), k, kind)
  {
    var o := Denoted(g, fields);
    var k, kind :| FaultAt(g, o, k, kind, err);
    assert forall j, other | Holds(o, j, other) :: j in fields && Readable(g, j, fields[j]) && OfKind(g, j, other);
    assert OfKind(g, k, kind);
  }

  /** ParseOverrides: decodes field by field, then validates the whole, so it never returns
      a set validation rejects.  Which fault of an unacceptable object is named depends on the
      order its fields are visited in, but it is one the object has. */
  method ParseOverrides(g: Registry, raw: Raw) returns (r: Result<Overrides, FlagError>)
    ensures r.Ok? <==> Accepts(g, raw)
    ensures r.Ok? ==> r.value == Parsed(g, raw) && Valid(g, r.value)
    ensures r.Err? ==> ParseFault(g, raw, r.error)
  {
    if raw.Empty? {
      return Ok(NONE);
    }
    if raw.Malformed? {
      return Err(DecodeFailed);
    }
    var fields: map<Key, Json> := if raw.Object? then raw.fields else map[];
    r := DecodeFields(g, fields);
    if r.Err? {
      return;
    }
    var err := ValidateOverrides(g, r.value);
    if err.Some? {
      NullIsNone(g);
      DenotedFaults(g, fields, err.value);
      return Err(err.value);
    }
    NullIsNone(g);
  }

  lemma NullIsNone(g: Registry)
    ensures Denoted(g, map[]) == NONE
  {
    assert BoolsIn(g, map[]) == map[] && IntsIn(g, map[]) == map[];
    assert FloatsIn(g, map[]) == map[] && StringsIn(g, map[]) == map[];
  }

  // ---------------------------------------------------------------------- marshalling ----

  // encoding/json writes a float with no fraction as a plain integer, up to 1e21.
  function FloatLiteral(r: real): (v: Json)
    ensures (v.JInteger? || v.JReal?) && AsFloat(v) == r
  {
    if r == r.Floor as real && -1000000000000000000000.0 < r < 1000000000000000000000.0 then JInteger(r.Floor)
      else JReal(r)
  }

  // The value a key is written with: the last of the four maps to hold it wins.
  function Written(o: Overrides, k: Key): Json
    requires k in KeysOf(o)
  {
    if k in o.strings then JString(o.strings[k])
    else if k in o.floats then FloatLiteral(o.floats[k])
    else if k in o.ints then JInteger(o.ints[k])
    else JBool(o.bools[k])
  }

  function KeysOf(o: Overrides): set<Key> {
    o.bools.Keys + o.ints.Keys + o.floats.Keys + o.strings.Keys
  }

  function MarshalFields(o: Overrides): map<Key, Json> {
    map k | k in KeysOf(o) :: Written(o, k)
  }

  function Marshal(o: Overrides): Raw {
    Object(MarshalFields(o))
  }

  method PutAll(flat: map<Key, Json>, values: map<Key, Json>) returns (flat': map<Key, Json>)
    ensures flat' == flat + values
  {
    flat' := flat;
    var left := values.Keys;
    ghost var done: map<Key, Json> := map[];
    assert values - left == map[];
    while left != {}
      invariant left <= values.Keys && done == values - left
      invariant flat' == flat + done
      decreases |left|
    {
      var k :| k in left;
      TakeOne(values, left, k);
      PutOne(flat, done, k, values[k]);
      flat' := flat'[k := values[k]];
      done := done[k := values[k]];
      left := left - {k};
    }
    assert values - left == values;
  }

  lemma PutOne(flat: map<Key, Json>, done: map<Key, Json>, k: Key, v: Json)
    ensures (flat + done)[k := v] == flat + done[k := v]
  { }

  function BoolLayer(o: Overrides): map<Key, Json> { map k | k in o.bools :: JBool(o.bools[k]) }

  function IntLayer(o: Overrides): map<Key, Json> { map k | k in o.ints :: JInteger(o.ints[k]) }

  function FloatLayer(o: Overrides): map<Key, Json> { map k | k in o.floats :: FloatLiteral(o.floats[k]) }

  function StringLayer(o: Overrides): map<Key, Json> { map k | k in o.strings :: JString(o.strings[k]) }

  lemma LayersMakeTheObject(o: Overrides)
    ensures BoolLayer(o) + IntLayer(o) + FloatLayer(o) + StringLayer(o) == MarshalFields(o)
  {
    var flat := BoolLayer(o) + IntLayer(o) + FloatLayer(o) + StringLayer(o);
    assert flat.Keys == KeysOf(o);
    forall k | k in flat ensures flat[k] == Written(o, k) { }
  }

  /** MarshalJSON lays the four maps over each other in one flat object. */
  method MarshalJSON(o: Overrides) returns (raw: Raw)
    ensures raw == Marshal(o)
  {
    var flat := PutAll(map[], BoolLayer(o));
    flat := PutAll(flat, IntLayer(o));
    flat := PutAll(flat, FloatLayer(o));
    flat := PutAll(flat, StringLayer(o));
    assert map[] + BoolLayer(o) == BoolLayer(o);
    LayersMakeTheObject(o);
    raw := Object(flat);
  }

  // The map a written key came from is the map of its registered kind.
  lemma WrittenReads(g: Registry, o: Overrides, k: Key)
    requires Valid(g, o) && k in KeysOf(o)
    ensures Readable(g, k, Written(o, k))
    ensures OfKind(g, k, KindBool) ==> k in o.bools && AsBool(Written(o, k)) == o.bools[k]
    ensures OfKind(g, k, KindInt) ==> k in o.ints && AsInt(Written(o, k)) == o.ints[k]
    ensures OfKind(g, k, KindFloat) ==> k in o.floats && AsFloat(Written(o, k)) == o.floats[k]
    ensures OfKind(g, k, KindString) ==> k in o.strings && AsString(Written(o, k)) == o.strings[k]
  {
    if k in o.strings {
      assert Passes(g, o, k, KindString);
    } else if k in o.floats {
      assert Passes(g, o, k, KindFloat);
    } else if k in o.ints {
      assert Passes(g, o, k, KindInt);
    } else {
      assert Passes(g, o, k, KindBool);
    }
  }

  lemma HeldIsOfKind(g: Registry, o: Overrides, k: Key)
    requires Valid(g, o)
    ensures k in o.bools ==> OfKind(g, k, KindBool)
    ensures k in o.ints ==> OfKind(g, k, KindInt)
    ensures k in o.floats ==> OfKind(g, k, KindFloat)
    ensures k in o.strings ==> OfKind(g, k, KindString)
  {
    assert k in o.bools ==> Passes(g, o, k, KindBool);
    assert k in o.ints ==> Passes(g, o, k, KindInt);
    assert k in o.floats ==> Passes(g, o, k, KindFloat);
    assert k in o.strings ==> Passes(g, o, k, KindString);
  }

  lemma MarshalReads(g: Registry, o: Overrides)
    requires Valid(g, o)
    ensures AllReadable(g, MarshalFields(o)) && Denoted(g, MarshalFields(o)) == o
  {
    var f := MarshalFields(o);
    forall k | k in f ensures Readable(g, k, f[k]) { WrittenReads(g, o, k); }
    BoolsSurvive(g, o);
    IntsSurvive(g, o);
    FloatsSurvive(g, o);
    StringsSurvive(g, o);
  }

  lemma BoolsSurvive(g: Registry, o: Overrides)
    requires Valid(g, o)
    ensures BoolsIn(g, MarshalFields(o)) == o.bools
  {
    var m := BoolsIn(g, MarshalFields(o));
    forall k ensures k in m <==> k in o.bools { HeldIsOfKind(g, o, k); if k in m { WrittenReads(g, o, k); } }
    forall k | k in m ensures m[k] == o.bools[k] { WrittenReads(g, o, k); }
  }

  lemma IntsSurvive(g: Registry, o: Overrides)
    requires Valid(g, o)
    ensures IntsIn(g, MarshalFields(o)) == o.ints
  {
    var m := IntsIn(g, MarshalFields(o));
    forall k ensures k in m <==> k in o.ints { HeldIsOfKind(g, o, k); if k in m { WrittenReads(g, o, k); } }
    forall k | k in m ensures m[k] == o.ints[k] { WrittenReads(g, o, k); }
  }

  lemma FloatsSurvive(g: Registry, o: Overrides)
    requires Valid(g, o)
    ensures FloatsIn(g, MarshalFields(o)) == o.floats
  {
    var m := FloatsIn(g, MarshalFields(o));
    forall k ensures k in m <==> k in o.floats { HeldIsOfKind(g, o, k); if k in m { WrittenReads(g, o, k); } }
    forall k | k in m ensures m[k] == o.floats[k] { WrittenReads(g, o, k); }
  }

  lemma StringsSurvive(g: Registry, o: Overrides)
    requires Valid(g, o)
    ensures StringsIn(g, MarshalFields(o)) == o.strings
  {
    var m := StringsIn(g, MarshalFields(o));
    forall k ensures k in m <==> k in o.strings { HeldIsOfKind(g, o, k); if k in m { WrittenReads(g, o, k); } }
    forall k | k in m ensures m[k] == o.strings[k] { WrittenReads(g, o, k); }
  }

  /** Parsing undoes marshalling exactly for the sets validation accepts. */
  lemma RoundTripsExactlyWhenValid(g: Registry, o: Overrides)
    ensures Accepts(g, Marshal(o)) && Parsed(g, Marshal(o)) == o <==> Valid(g, o)
  {
    if Valid(g, o) { MarshalReads(g, o); }
  }

  /** What disjointness of the maps buys: sets with no shared key are told apart by their
      flat objects, up to a whole number held as an int or as a float. */
  lemma DisjointMarshalIsLossless(o: Overrides, k: Key)
    requires Disjoint(o)
    ensures k in o.bools ==> MarshalFields(o)[k] == JBool(o.bools[k])
    ensures k in o.ints ==> MarshalFields(o)[k] == JInteger(o.ints[k])
    ensures k in o.floats ==> AsFloat(MarshalFields(o)[k]) == o.floats[k]
    ensures k in o.strings ==> MarshalFields(o)[k] == JString(o.strings[k])
  {
    assert k in o.bools ==> k !in o.ints.Keys && k !in o.floats.Keys && k !in o.strings.Keys;
    assert k in o.ints ==> k !in o.floats.Keys && k !in o.strings.Keys;
    assert k in o.floats ==> k !in o.strings.Keys;
  }

  /** And what a clash costs: two sets that differ only in a shadowed value marshal alike. */
  lemma ClashIsLossy(o: Overrides, k: Key, b: bool)
    requires k in o.bools && k in o.strings
    ensures Marshal(o) == Marshal(o.(bools := o.bools[k := b]))
  {
    var p := o.(bools := o.bools[k := b]);
    assert KeysOf(p) == KeysOf(o);
    forall j | j in KeysOf(o) ensures Written(p, j) == Written(o, j) { }
    assert MarshalFields(p) == MarshalFields(o);
  }

  /** An accepted object keeps its keys through parse and marshal, and reading the result
      again gives the same set: what is stored is a fixed point. */
  lemma ReparseIsStable(g: Registry, fields: map<Key, Json>)
    requires Accepts(g, Object(fields))
    ensures MarshalFields(Denoted(g, fields)).Keys == fields.Keys
    ensures Accepts(g, Marshal(Denoted(g, fields)))
    ensures Parsed(g, Marshal(Denoted(g, fields))) == Denoted(g, fields)
  {
    var o := Denoted(g, fields);
    MarshalReads(g, o);
    forall k ensures k in fields <==> k in KeysOf(o) {
      if k in fields {
        assert Readable(g, k, fields[k]);
        var kind := g.defs[k].kind;
        assert kind.KindBool? || kind.KindInt? || kind.KindFloat? || kind.KindString?;
        assert OfKind(g, k, kind);
      }
    }
  }

  /** A stored null is not an error: for an unconstrained flag it reads as the kind's zero
      value, an explicit override to false, zero or the empty text. */
  lemma NullReadsAsZero(g: Registry, k: Key, fields: map<Key, Json>)
    requires k in g.defs && g.defs[k].overridable && k != g.fallbackModel
    requires Accepts(g, Object(fields)) && k !in fields
    ensures Accepts(g, Object(fields[k := JNull]))
    ensures Parsed(g, Object(fields[k := JNull])) == Set(Denoted(g, fields), k, g.defs[k].kind, JNull)
    ensures var o := Parsed(g, Object(fields[k := JNull]));
            match g.defs[k].kind
            case KindBool => k in o.bools && !o.bools[k]
            case KindInt => k in o.ints && o.ints[k] == 0
            case KindFloat => k in o.floats && o.floats[k] == 0.0
            case KindString => k in o.strings && o.strings[k] == ""
  {
    assert AllReadable(g, fields[k := JNull]);
    SetIsDenoted(g, fields, k, JNull);
    var o, p := Denoted(g, fields), Denoted(g, fields[k := JNull]);
    var kind := g.defs[k].kind;
    assert forall j | j in p.bools :: Passes(g, p, j, KindBool) by {
      forall j | j in p.bools ensures Passes(g, p, j, KindBool) { assert j != k ==> Passes(g, o, j, KindBool); }
    }
    assert forall j | j in p.ints :: Passes(g, p, j, KindInt) by {
      forall j | j in p.ints ensures Passes(g, p, j, KindInt) { assert j != k ==> Passes(g, o, j, KindInt); }
    }
    assert forall j | j in p.floats :: Passes(g, p, j, KindFloat) by {
      forall j | j in p.floats ensures Passes(g, p, j, KindFloat) { assert j != k ==> Passes(g, o, j, KindFloat); }
    }
    assert forall j | j in p.strings :: Passes(g, p, j, KindString) by {
      forall j | j in p.strings ensures Passes(g, p, j, KindString) { assert j != k ==> Passes(g, o, j, KindString); }
    }
  }
}

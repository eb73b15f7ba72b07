/** The JSON-Schema subset tool inputs are declared in: which schemas a deployment may use, and
    how an input is checked against one. */
module ToolSchema {
  import opened Common
  import opened Json

  const MAX_SCHEMA_DEPTH: nat := 8

  const ALLOWED_KEYWORDS: set<string> := {
    "type", "properties", "required", "additionalProperties", "items", "enum", "description",
    "minLength", "maxLength", "minimum", "maximum"
  }

  const KINDS: set<string> := {"object", "array", "string", "number", "integer", "boolean", "null"}

  type Schema = seq<Field>

  // ---------- reading keywords ----------

  function ObjectAt(schema: Schema, key: string): (r: Option<seq<Field>>)
    ensures r.Some? ==> Get(schema, key) == Some(Obj(r.value))
    ensures r.None? ==> Get(schema, key).None? || !Get(schema, key).value.Obj?
  {
    match Get(schema, key) case Some(Obj(fields)) => Some(fields) case _ => None
  }

  function ArrayAt(schema: Schema, key: string): (r: Option<seq<Value>>)
    ensures r.Some? ==> Get(schema, key) == Some(Arr(r.value))
    ensures r.None? ==> Get(schema, key).None? || !Get(schema, key).value.Arr?
  {
    match Get(schema, key) case Some(Arr(items)) => Some(items) case _ => None
  }

  /** `as_u64`: a nonnegative integer literal of at most 64 bits. */
  function U64At(schema: Schema, key: string): Option<nat> {
    match Get(schema, key) case Some(Num(Integer(i))) => if 0 <= i <= U64_MAX then Some(i) else None case _ => None
  }

  function AsReal(n: Number): real {
    match n case Integer(i) => i as real case Float(r) => r
  }

  function RealAt(schema: Schema, key: string): Option<real> {
    match Get(schema, key) case Some(Num(n)) => Some(AsReal(n)) case _ => None
  }

  predicate HasKind(v: Value, kind: string) {
    match kind
    case "object" => v.Obj?
    case "array" => v.Arr?
    case "string" => v.Str?
    case "number" => v.Num?
    case "integer" => v.Num? && v.n.Integer?
    case "boolean" => v.Bool?
    case "null" => v.Null?
    case _ => false
  }

  // ---------- the deployment contract ----------

  predicate RequiredOk(required: Value, properties: Option<seq<Field>>) {
    && required.Arr?
    && (forall i :: 0 <= i < |required.items| ==>
          && required.items[i].Str?
          && properties.Some?
          && Get(properties.value, required.items[i].s).Some?)
    && Distinct(required.items)
  }

  /** Keyword checks that do not descend. */
  predicate KeywordsOk(schema: Schema) {
    && (forall i :: 0 <= i < |schema| ==> schema[i].key in ALLOWED_KEYWORDS)
    && (Get(schema, "type").Some? ==> Get(schema, "type").value.Str? && Get(schema, "type").value.s in KINDS)
    && (Get(schema, "properties").Some? ==>
          ObjectAt(schema, "properties").Some? && |ObjectAt(schema, "properties").value| <= 128)
    && (Get(schema, "required").Some? ==> RequiredOk(Get(schema, "required").value, ObjectAt(schema, "properties")))
    && (Get(schema, "additionalProperties").Some? ==> Get(schema, "additionalProperties").value.Bool?)
    && (Get(schema, "items").Some? ==> ObjectAt(schema, "items").Some?)
    && (Get(schema, "enum").Some? ==>
          ArrayAt(schema, "enum").Some? && 1 <= |ArrayAt(schema, "enum").value| <= 128)
    && (Get(schema, "description").Some? ==>
          Get(schema, "description").value.Str? && |Get(schema, "description").value.s| <= 2000)
    && (Get(schema, "minLength").Some? ==> U64At(schema, "minLength").Some?)
    && (Get(schema, "maxLength").Some? ==> U64At(schema, "maxLength").Some?)
    && (Get(schema, "minimum").Some? ==> RealAt(schema, "minimum").Some?)
    && (Get(schema, "maximum").Some? ==> RealAt(schema, "maximum").Some?)
  }

  /** `validate_schema_node`: every nested schema obeys the contract, at most eight levels down. */
  predicate SchemaNodeOk(schema: Schema, depth: nat)
    decreases MAX_SCHEMA_DEPTH + 1 - depth
  {
    && depth <= MAX_SCHEMA_DEPTH
    && (schema == [] ||
        (&& KeywordsOk(schema)
         && (ObjectAt(schema, "properties").Some? ==>
               PropertiesOk(ObjectAt(schema, "properties").value, depth))
         && (ObjectAt(schema, "items").Some? ==>
               SchemaNodeOk(ObjectAt(schema, "items").value, depth + 1))))
  }

  predicate PropertiesOk(properties: seq<Field>, depth: nat)
    requires depth <= MAX_SCHEMA_DEPTH
    decreases MAX_SCHEMA_DEPTH + 1 - depth, 0
  {
    forall i :: 0 <= i < |properties| ==>
      && 0 < |properties[i].key| <= 160
      && properties[i].value.Obj?
      && SchemaNodeOk(properties[i].value.fields, depth + 1)
  }

  // ---------- checking an input ----------

  datatype InstanceError =
    | DepthExceeded | NotInEnum | UnknownKind | WrongKind | MissingProperty | UnexpectedProperty
    | LengthOutOfBounds | NumberOutOfBounds

  function Require(condition: bool, error: InstanceError): Result<(), InstanceError> {
    if condition then Ok(()) else Err(error)
  }

  function Then(a: Result<(), InstanceError>, b: Result<(), InstanceError>): Result<(), InstanceError> {
    if a.Ok? then b else a
  }

  function CheckEnum(schema: Schema, input: Value): Result<(), InstanceError> {
    var values := ArrayAt(schema, "enum");
    Require(values.Some? ==> input in values.value, NotInEnum)
  }

  function CheckKind(schema: Schema, input: Value): Result<(), InstanceError> {
    match Get(schema, "type")
    case Some(Str(kind)) =>
      if kind !in KINDS then Err(UnknownKind) else Require(HasKind(input, kind), WrongKind)
    case _ => Ok(())
  }

  function CheckRequired(required: seq<Value>, fields: seq<Field>): Result<(), InstanceError> {
    if required == [] then Ok(())
    else Then(Require(required[0].Str? ==> Get(fields, required[0].s).Some?, MissingProperty),
              CheckRequired(required[1..], fields))
  }

  function CheckUnexpected(fields: seq<Field>, properties: Option<seq<Field>>): Result<(), InstanceError> {
    if fields == [] then Ok(())
    else Then(Require(properties.Some? && Get(properties.value, fields[0].key).Some?, UnexpectedProperty),
              CheckUnexpected(fields[1..], properties))
  }

  function CheckString(schema: Schema, text: string): Result<(), InstanceError> {
    var minimum, maximum := U64At(schema, "minLength"), U64At(schema, "maxLength");
    Require((minimum.Some? ==> minimum.value <= |text|) && (maximum.Some? ==> |text| <= maximum.value), LengthOutOfBounds)
  }

  function CheckNumber(schema: Schema, n: Number): Result<(), InstanceError> {
    var minimum, maximum := RealAt(schema, "minimum"), RealAt(schema, "maximum");
    Require((minimum.Some? ==> minimum.value <= AsReal(n)) && (maximum.Some? ==> AsReal(n) <= maximum.value), NumberOutOfBounds)
  }

  /** `validate_instance`, in the order of the runtime's checks. */
  function ValidateInstance(schema: Schema, input: Value, depth: nat): Result<(), InstanceError>
    decreases input, 1
  {
    if schema == [] then Ok(())
    else if depth > MAX_SCHEMA_DEPTH then Err(DepthExceeded)
    else
      Then(CheckEnum(schema, input),
      Then(CheckKind(schema, input),
      match input
      case Obj(fields) => ValidateObject(schema, fields, depth)
      case Arr(elements) =>
        var items := ObjectAt(schema, "items");
        if items.Some? then ValidateItems(items.value, elements, depth) else Ok(())
      case Str(text) => CheckString(schema, text)
      case Num(n) => CheckNumber(schema, n)
      case _ => Ok(())))
  }

  function ValidateObject(schema: Schema, fields: seq<Field>, depth: nat): Result<(), InstanceError>
    decreases fields, 1
  {
    var required, properties := ArrayAt(schema, "required"), ObjectAt(schema, "properties");
    Then(if required.Some? then CheckRequired(required.value, fields) else Ok(()),
    Then(if Get(schema, "additionalProperties") == Some(Bool(false)) then CheckUnexpected(fields, properties) else Ok(()),
         if properties.Some? then ValidateProperties(properties.value, fields, depth) else Ok(())))
  }

  function ValidateProperties(properties: seq<Field>, fields: seq<Field>, depth: nat): Result<(), InstanceError>
    decreases fields, 0
  {
    if fields == [] then Ok(())
    else
      var child := ObjectAt(properties, fields[0].key);
      Then(if child.Some? then ValidateInstance(child.value, fields[0].value, depth + 1) else Ok(()),
           ValidateProperties(properties, fields[1..], depth))
  }

  function ValidateItems(items: Schema, elements: seq<Value>, depth: nat): Result<(), InstanceError>
    decreases elements, 0
  {
    if elements == [] then Ok(())
    else Then(ValidateInstance(items, elements[0], depth + 1), ValidateItems(items, elements[1..], depth))
  }

  // ---------- what a schema means ----------

  ghost predicate ObjectConforms(schema: Schema, fields: seq<Field>) {
    && (forall name :: ArrayAt(schema, "required").Some? && Str(name) in ArrayAt(schema, "required").value ==>
          Get(fields, name).Some?)
    && (Get(schema, "additionalProperties") == Some(Bool(false)) ==>
          AllDeclared(fields, ObjectAt(schema, "properties")))
  }

  ghost predicate AllDeclared(fields: seq<Field>, properties: Option<seq<Field>>) {
    forall f :: f in fields ==> properties.Some? && Get(properties.value, f.key).Some?
  }

  /** The seven kinds; an "integer" is an integer literal, never `1.0`. */
  ghost predicate KindConforms(schema: Schema, v: Value) {
    var kind := Get(schema, "type");
    && (kind == Some(Str("object")) ==> v.Obj?)
    && (kind == Some(Str("array")) ==> v.Arr?)
    && (kind == Some(Str("string")) ==> v.Str?)
    && (kind == Some(Str("number")) ==> v.Num?)
    && (kind == Some(Str("integer")) ==> v.Num? && v.n.Integer?)
    && (kind == Some(Str("boolean")) ==> v.Bool?)
    && (kind == Some(Str("null")) ==> v.Null?)
  }

  /** A length keyword that is an integer literal of 64 bits bounds the length. */
  ghost predicate LengthConforms(schema: Schema, n: nat) {
    && (forall least: nat :: Get(schema, "minLength") == Some(Num(Integer(least))) && least <= U64_MAX ==> least <= n)
    && (forall most: nat :: Get(schema, "maxLength") == Some(Num(Integer(most))) && most <= U64_MAX ==> n <= most)
  }

  ghost predicate Measures(n: Number, r: real) {
    n == Float(r) || exists i :: n == Integer(i) && r == i as real
  }

  /** Numeric bounds, whichever way the literals are written. */
  ghost predicate NumberConforms(schema: Schema, n: Number) {
    && (forall least, a, b :: Get(schema, "minimum") == Some(Num(least)) && Measures(least, a) && Measures(n, b) ==> a <= b)
    && (forall most, a, b :: Get(schema, "maximum") == Some(Num(most)) && Measures(most, a) && Measures(n, b) ==> b <= a)
  }

  /** The values a schema describes, with no notion of depth or order of checks. */
  ghost predicate Conforms(schema: Schema, v: Value)
    decreases v
  {
    && (ArrayAt(schema, "enum").Some? ==> v in ArrayAt(schema, "enum").value)
    && KindConforms(schema, v)
    && (match v
        case Obj(fields) =>
          && ObjectConforms(schema, fields)
          && (ObjectAt(schema, "properties").Some? ==>
                forall i :: 0 <= i < |fields| && ObjectAt(ObjectAt(schema, "properties").value, fields[i].key).Some? ==>
                  Conforms(ObjectAt(ObjectAt(schema, "properties").value, fields[i].key).value, fields[i].value))
        case Arr(elements) =>
          ObjectAt(schema, "items").Some? ==>
            forall i :: 0 <= i < |elements| ==> Conforms(ObjectAt(schema, "items").value, elements[i])
        case Str(text) => LengthConforms(schema, |text|)
        case Num(n) => NumberConforms(schema, n)
        case _ => true)
  }

  /** A verdict agrees with a meaning, and is not one of the two internal errors. */
  predicate Decides(r: Result<(), InstanceError>, meaning: bool) {
    (r.Ok? <==> meaning) && (r.Err? ==> r.error != DepthExceeded && r.error != UnknownKind)
  }

  /** For contract-accepted schemas the checker accepts exactly what the schema describes; at
      every nesting of the input, its depth error and its unknown-type arm are unreachable. */
  lemma {:induction false} ValidateInstanceMeaning(schema: Schema, input: Value, depth: nat)
    requires SchemaNodeOk(schema, depth)
    ensures Decides(ValidateInstance(schema, input, depth), Conforms(schema, input))
    decreases input, 1
  {
    hide Get, HasKind, PropertiesOk, RequiredOk, ValidateObject, ValidateItems, KindConforms, LengthConforms, NumberConforms, CheckKind, CheckString, CheckNumber;
    if schema == [] {
      EmptyMeaning(input);
      return;
    }
    KindMeaning(schema, input);
    match input
    case Obj(fields) => ObjectMeaning(schema, fields, depth);
    case Arr(elements) =>
      if ObjectAt(schema, "items").Some? {
        ItemsMeaning(ObjectAt(schema, "items").value, elements, depth);
      }
    case Str(text) => LengthMeaning(schema, text);
    case Num(n) => NumberMeaning(schema, n);
    case _ =>
  }

  lemma EmptyMeaning(v: Value)
    ensures Conforms([], v)
  {
    NothingIn([]);
    hide Get;
  }

  lemma LengthMeaning(schema: Schema, text: string)
    ensures Decides(CheckString(schema, text), LengthConforms(schema, |text|))
  {
    hide Get;
  }

  lemma MeasureIs(n: Number, r: real)
    ensures Measures(n, r) <==> r == AsReal(n)
  {
  }

  lemma NumberMeaning(schema: Schema, n: Number)
    ensures Decides(CheckNumber(schema, n), NumberConforms(schema, n))
  {
    hide Get;
    forall m: Number, r: real
      ensures Measures(m, r) <==> r == AsReal(m)
    {
      MeasureIs(m, r);
    }
    assert Measures(n, AsReal(n));
    hide Measures, AsReal;
    var least, most := Get(schema, "minimum"), Get(schema, "maximum");
    if least.Some? && least.value.Num? {
      assert Measures(least.value.n, AsReal(least.value.n));
    }
    if most.Some? && most.value.Num? {
      assert Measures(most.value.n, AsReal(most.value.n));
    }
  }

  lemma {:induction false} ObjectMeaning(schema: Schema, fields: seq<Field>, depth: nat)
    requires depth <= MAX_SCHEMA_DEPTH
    requires ObjectAt(schema, "properties").Some? ==> PropertiesOk(ObjectAt(schema, "properties").value, depth)
    ensures Decides(ValidateObject(schema, fields, depth),
                    && ObjectConforms(schema, fields)
                    && (ObjectAt(schema, "properties").Some? ==> PropertiesConform(ObjectAt(schema, "properties").value, fields)))
    decreases fields, 1
  {
    var required, properties := ArrayAt(schema, "required"), ObjectAt(schema, "properties");
    if required.Some? {
      RequiredMeaning(required.value, fields);
    }
    UnexpectedMeaning(fields, properties);
    if properties.Some? {
      PropertiesMeaning(properties.value, fields, depth);
    }
    hide CheckRequired, CheckUnexpected, ValidateProperties, Conforms, Get;
  }

  lemma KindMeaning(schema: Schema, input: Value)
    requires KeywordsOk(schema)
    ensures Decides(CheckKind(schema, input), KindConforms(schema, input))
  {
    hide RequiredOk, Get;
  }

  lemma NothingIn(schema: Schema)
    ensures schema == [] ==> forall key :: Get(schema, key).None?
  {
  }

  lemma {:induction false} RequiredMeaning(required: seq<Value>, fields: seq<Field>)
    ensures Decides(CheckRequired(required, fields), forall name :: Str(name) in required ==> Get(fields, name).Some?)
  {
    if required != [] {
      RequiredMeaning(required[1..], fields);
      assert forall x :: x in required <==> x == required[0] || x in required[1..];
    }
  }

  lemma {:induction false} UnexpectedMeaning(fields: seq<Field>, properties: Option<seq<Field>>)
    ensures Decides(CheckUnexpected(fields, properties), AllDeclared(fields, properties))
  {
    if fields != [] {
      UnexpectedMeaning(fields[1..], properties);
      assert fields[0] in fields;
      assert forall f :: f in fields <==> f == fields[0] || f in fields[1..];
    }
  }

  ghost predicate PropertiesConform(properties: seq<Field>, fields: seq<Field>) {
    forall i :: 0 <= i < |fields| && ObjectAt(properties, fields[i].key).Some? ==>
      Conforms(ObjectAt(properties, fields[i].key).value, fields[i].value)
  }

  lemma {:induction false} PropertiesMeaning(properties: seq<Field>, fields: seq<Field>, depth: nat)
    requires depth <= MAX_SCHEMA_DEPTH && PropertiesOk(properties, depth)
    ensures Decides(ValidateProperties(properties, fields, depth), PropertiesConform(properties, fields))
    decreases fields, 0
  {
    if fields != [] {
      PropertiesMeaning(properties, fields[1..], depth);
      assert forall i :: 1 <= i < |fields| ==> fields[i] == fields[1..][i - 1];
      var child := ObjectAt(properties, fields[0].key);
      if child.Some? {
        var j :| 0 <= j < |properties| && properties[j] == Field(fields[0].key, Obj(child.value));
        assert SchemaNodeOk(properties[j].value.fields, depth + 1);
        ValidateInstanceMeaning(child.value, fields[0].value, depth + 1);
      }
    }
  }

  lemma {:induction false} ItemsMeaning(items: Schema, elements: seq<Value>, depth: nat)
    requires SchemaNodeOk(items, depth + 1)
    ensures Decides(ValidateItems(items, elements, depth), forall i :: 0 <= i < |elements| ==> Conforms(items, elements[i]))
    decreases elements, 0
  {
    if elements != [] {
      ItemsMeaning(items, elements[1..], depth);
      assert forall i :: 1 <= i < |elements| ==> elements[i] == elements[1..][i - 1];
      ValidateInstanceMeaning(items, elements[0], depth + 1);
    }
  }
}

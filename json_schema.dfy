/**
 * JSON values and the fragment of JSON Schema that the route schemas use:
 * an object schema with `required`, typed `properties` carrying `minimum`,
 * `maximum`, `minLength`, `maxLength` and `default`, and
 * `additionalProperties: false`. `Validate` reports the first violation it
 * finds, or accepts the object and fills in the declared defaults. A
 * validator that fills in defaults does that first and checks the filled
 * object; the model checks the supplied object and fills in afterwards. The
 * orders differ only for a key that is both required and defaulted, or whose
 * default breaks its own rule, and no route schema has such a key.
 */
module JsonSchema {
  import opened Wrappers

  /** A parsed JSON value. Numbers are exact; JSON has no separate integer type. */
  datatype Json = JString(s: string) | JNumber(n: real) | JBool(b: bool) | JNull

  /** A JSON object: key to value. */
  type Payload = map<string, Json>

  datatype JsonType = StringType | NumberType | IntegerType

  /** JSON Schema's "integer" is a number without a fractional part (3.0 is one). */
  predicate IsIntegral(x: real) {
    x.Floor as real == x
  }

  predicate HasType(v: Json, t: JsonType) {
    match t
    case StringType => v.JString?
    case NumberType => v.JNumber?
    case IntegerType => v.JNumber? && IsIntegral(v.n)
  }

  /** One entry of `properties`. Numeric bounds apply to numbers, length bounds to strings. */
  datatype Property = Property(
    name: string,
    ty: JsonType,
    minimum: Option<real>,
    maximum: Option<real>,
    minLength: Option<nat>,
    maxLength: Option<nat>,
    defaultValue: Option<Json>)

  /** `additionalProperties` false means keys outside `properties` are refused. */
  datatype ObjectSchema = ObjectSchema(
    required: seq<string>,
    properties: seq<Property>,
    additionalProperties: bool)

  datatype Violation =
    | WrongType(expected: JsonType)
    | BelowMinimum(minimum: real)
    | AboveMaximum(maximum: real)
    | TooShort(minLength: nat)
    | TooLong(maxLength: nat)

  datatype ValidationError =
    | MissingProperty(name: string)
    | InvalidProperty(name: string, violation: Violation)
    | AdditionalProperty

  /** The declarative meaning of one property rule for a present value. */
  predicate Conforms(p: Property, v: Json) {
    && HasType(v, p.ty)
    && (v.JNumber? && p.minimum.Some? ==> v.n >= p.minimum.value)
    && (v.JNumber? && p.maximum.Some? ==> v.n <= p.maximum.value)
    && (v.JString? && p.minLength.Some? ==> |v.s| >= p.minLength.value)
    && (v.JString? && p.maxLength.Some? ==> |v.s| <= p.maxLength.value)
  }

  /** The first keyword of `p` that `v` violates, checked in a fixed order. */
  function PropertyViolation(p: Property, v: Json): (r: Option<Violation>)
    ensures r.None? <==> Conforms(p, v)
    ensures r.Some? && r.value.WrongType? ==> r.value.expected == p.ty && !HasType(v, p.ty)
    ensures r.Some? && r.value.BelowMinimum? ==>
              p.minimum == Some(r.value.minimum) && v.JNumber? && v.n < r.value.minimum
    ensures r.Some? && r.value.AboveMaximum? ==>
              p.maximum == Some(r.value.maximum) && v.JNumber? && v.n > r.value.maximum
    ensures r.Some? && r.value.TooShort? ==>
              p.minLength == Some(r.value.minLength) && v.JString? && |v.s| < r.value.minLength
    ensures r.Some? && r.value.TooLong? ==>
              p.maxLength == Some(r.value.maxLength) && v.JString? && |v.s| > r.value.maxLength
  {
    if !HasType(v, p.ty) then Some(WrongType(p.ty))
    else if v.JNumber? && p.minimum.Some? && v.n < p.minimum.value then Some(BelowMinimum(p.minimum.value))
    else if v.JNumber? && p.maximum.Some? && v.n > p.maximum.value then Some(AboveMaximum(p.maximum.value))
    else if v.JString? && p.minLength.Some? && |v.s| < p.minLength.value then Some(TooShort(p.minLength.value))
    else if v.JString? && p.maxLength.Some? && |v.s| > p.maxLength.value then Some(TooLong(p.maxLength.value))
    else None
  }

  /** The first required key that is absent. */
  function MissingRequired(required: seq<string>, obj: Payload): (r: Option<ValidationError>)
    ensures r.None? <==> forall i :: 0 <= i < |required| ==> required[i] in obj
    ensures r.Some? ==> r.value.MissingProperty? && r.value.name !in obj && r.value.name in required
  {
    if required == [] then None
    else if required[0] !in obj then Some(MissingProperty(required[0]))
    else MissingRequired(required[1..], obj)
  }

  predicate Declared(properties: seq<Property>, key: string) {
    exists i :: 0 <= i < |properties| && properties[i].name == key
  }

  /** Refuses an undeclared key when the schema is closed. */
  function UndeclaredKey(schema: ObjectSchema, obj: Payload): (r: Option<ValidationError>)
    ensures r.None? <==>
              (!schema.additionalProperties ==> forall k :: k in obj ==> Declared(schema.properties, k))
    ensures r.Some? ==> r.value == AdditionalProperty
  {
    if !schema.additionalProperties && exists k :: k in obj && !Declared(schema.properties, k)
    then Some(AdditionalProperty)
    else None
  }

  /** The first declared property that is present and breaks its rule. */
  function FirstInvalid(properties: seq<Property>, obj: Payload): (r: Option<ValidationError>)
    ensures r.None? <==>
              forall i :: 0 <= i < |properties| && properties[i].name in obj ==>
                Conforms(properties[i], obj[properties[i].name])
    ensures r.Some? ==> r.value.InvalidProperty? && r.value.name in obj
    ensures r.Some? ==>
              (exists i :: 0 <= i < |properties| && properties[i].name == r.value.name &&
                 PropertyViolation(properties[i], obj[r.value.name]) == Some(r.value.violation))
  {
    if properties == [] then None
    else
      var p := properties[0];
      if p.name in obj && PropertyViolation(p, obj[p.name]).Some?
      then Some(InvalidProperty(p.name, PropertyViolation(p, obj[p.name]).value))
      else FirstInvalid(properties[1..], obj)
  }

  /** Checks `required`, then `additionalProperties`, then each property in declaration order. */
  function FirstError(schema: ObjectSchema, obj: Payload): (r: Option<ValidationError>)
    ensures r.Some? && r.value.MissingProperty? ==> r.value.name in schema.required && r.value.name !in obj
    ensures r.Some? && r.value.AdditionalProperty? ==>
              !schema.additionalProperties && (exists k :: k in obj && !Declared(schema.properties, k))
    ensures r.Some? && r.value.InvalidProperty? ==>
              && r.value.name in obj
              && (exists i :: 0 <= i < |schema.properties| && schema.properties[i].name == r.value.name &&
                    PropertyViolation(schema.properties[i], obj[r.value.name]) == Some(r.value.violation))
  {
    var missing := MissingRequired(schema.required, obj);
    if missing.Some? then missing
    else
      var extra := UndeclaredKey(schema, obj);
      if extra.Some? then extra
      else FirstInvalid(schema.properties, obj)
  }

  /**
   * The property that supplies the default for `key`: the first declared
   * property of that name with a `default`.
   */
  predicate SuppliesDefault(properties: seq<Property>, i: int, key: string) {
    && 0 <= i < |properties|
    && properties[i].name == key
    && properties[i].defaultValue.Some?
    && forall j :: 0 <= j < i && properties[j].name == key ==> properties[j].defaultValue.None?
  }

  /** Adds each absent property's declared default. */
  function WithDefaults(properties: seq<Property>, obj: Payload): (r: Payload)
    ensures forall k :: k in obj ==> k in r && r[k] == obj[k]
  {
    if properties == [] then obj
    else
      var rest := WithDefaults(properties[1..], obj);
      var p := properties[0];
      if p.name !in obj && p.defaultValue.Some? then rest[p.name := p.defaultValue.value] else rest
  }

  lemma SuppliesDefaultTail(properties: seq<Property>, i: int, key: string)
    requires 1 <= i && SuppliesDefault(properties, i, key)
    ensures SuppliesDefault(properties[1..], i - 1, key)
  {
    forall j | 0 <= j < i - 1 && properties[1..][j].name == key ensures properties[1..][j].defaultValue.None? {
      assert properties[1..][j] == properties[j + 1];
    }
  }

  lemma SuppliesDefaultCons(properties: seq<Property>, i: int, key: string)
    requires properties != [] && SuppliesDefault(properties[1..], i, key)
    requires properties[0].name != key || properties[0].defaultValue.None?
    ensures SuppliesDefault(properties, i + 1, key)
  {
    forall j | 0 <= j < i + 1 && properties[j].name == key ensures properties[j].defaultValue.None? {
      if j > 0 { assert properties[j] == properties[1..][j - 1]; }
    }
  }

  /** An absent key gets the default of the first property of that name that declares one. */
  lemma {:induction false} WithDefaultsFills(properties: seq<Property>, obj: Payload, i: nat)
    requires i < |properties| && SuppliesDefault(properties, i, properties[i].name)
    requires properties[i].name !in obj
    ensures var r, p := WithDefaults(properties, obj), properties[i];
            p.name in r && r[p.name] == p.defaultValue.value
  {
    if i > 0 {
      SuppliesDefaultTail(properties, i, properties[i].name);
      assert properties[1..][i - 1] == properties[i];
      WithDefaultsFills(properties[1..], obj, i - 1);
    }
  }

  /** A key that filling adds was absent and is the name of a property with a default. */
  lemma {:induction false} WithDefaultsAdds(properties: seq<Property>, obj: Payload, key: string) returns (i: nat)
    requires key in WithDefaults(properties, obj) && key !in obj
    ensures SuppliesDefault(properties, i, key)
  {
    var p := properties[0];
    if p.name == key && p.defaultValue.Some? {
      i := 0;
    } else {
      var j := WithDefaultsAdds(properties[1..], obj, key);
      SuppliesDefaultCons(properties, j, key);
      i := j + 1;
    }
  }

  /** The declarative meaning of an object schema. */
  predicate Accepts(schema: ObjectSchema, obj: Payload) {
    && (forall i :: 0 <= i < |schema.required| ==> schema.required[i] in obj)
    && (!schema.additionalProperties ==> forall k :: k in obj ==> Declared(schema.properties, k))
    && (forall i :: 0 <= i < |schema.properties| && schema.properties[i].name in obj ==>
          Conforms(schema.properties[i], obj[schema.properties[i].name]))
  }

  function Validate(schema: ObjectSchema, obj: Payload): (r: Result<Payload, ValidationError>)
    ensures r.Ok? <==> Accepts(schema, obj)
    ensures r.Err? ==> FirstError(schema, obj) == Some(r.error)
    ensures r.Ok? ==> forall k :: k in obj ==> k in r.value && r.value[k] == obj[k]
    ensures r.Ok? ==>
              forall i :: 0 <= i < |schema.properties| && SuppliesDefault(schema.properties, i, schema.properties[i].name) &&
                          schema.properties[i].name !in obj ==>
                schema.properties[i].name in r.value &&
                r.value[schema.properties[i].name] == schema.properties[i].defaultValue.value
    ensures r.Ok? ==> forall k :: k in r.value && k !in obj ==> exists i :: SuppliesDefault(schema.properties, i, k)
  {
    match FirstError(schema, obj)
    case Some(e) => Err(e)
    case None =>
      var ps := schema.properties;
      var d := WithDefaults(ps, obj);
      assert forall i :: 0 <= i < |ps| && SuppliesDefault(ps, i, ps[i].name) && ps[i].name !in obj ==>
               ps[i].name in d && d[ps[i].name] == ps[i].defaultValue.value by {
        forall i | 0 <= i < |ps| && SuppliesDefault(ps, i, ps[i].name) && ps[i].name !in obj
          ensures ps[i].name in d && d[ps[i].name] == ps[i].defaultValue.value
        {
          WithDefaultsFills(ps, obj, i);
        }
      }
      assert forall k :: k in d && k !in obj ==> exists i :: SuppliesDefault(ps, i, k) by {
        forall k | k in d && k !in obj ensures exists i :: SuppliesDefault(ps, i, k) {
          var i := WithDefaultsAdds(ps, obj, k);
        }
      }
      Ok(d)
  }

  /** After validation a property that supplies a default is present: the given value, or else its default. */
  lemma DefaultFilled(schema: ObjectSchema, obj: Payload, i: nat)
    requires Validate(schema, obj).Ok?
    requires i < |schema.properties| && SuppliesDefault(schema.properties, i, schema.properties[i].name)
    ensures var p, d := schema.properties[i], Validate(schema, obj).value;
            && p.name in d
            && d[p.name] == if p.name in obj then obj[p.name] else p.defaultValue.value
  {
  }

  lemma {:induction false} MissingRequiredIgnores(required: seq<string>, obj: Payload, key: string, v: Json)
    requires key !in required
    ensures MissingRequired(required, obj[key := v]) == MissingRequired(required, obj)
  {
    if required != [] {
      MissingRequiredIgnores(required[1..], obj, key, v);
    }
  }

  lemma {:induction false} FirstInvalidIgnores(properties: seq<Property>, obj: Payload, key: string, v: Json)
    requires !Declared(properties, key)
    ensures FirstInvalid(properties, obj[key := v]) == FirstInvalid(properties, obj)
  {
    if properties != [] {
      assert properties[0].name != key;
      assert !Declared(properties[1..], key) by {
        forall i | 0 <= i < |properties[1..]| ensures properties[1..][i].name != key {
          assert properties[1..][i] == properties[i + 1];
        }
      }
      FirstInvalidIgnores(properties[1..], obj, key, v);
    }
  }

  /**
   * An open schema neither refuses nor inspects a key it does not declare:
   * adding or replacing such a key leaves the outcome of validation as it was.
   */
  lemma FirstErrorIgnoresUndeclared(schema: ObjectSchema, obj: Payload, key: string, v: Json)
    requires schema.additionalProperties
    requires key !in schema.required && !Declared(schema.properties, key)
    ensures FirstError(schema, obj[key := v]) == FirstError(schema, obj)
  {
    MissingRequiredIgnores(schema.required, obj, key, v);
    FirstInvalidIgnores(schema.properties, obj, key, v);
  }
}

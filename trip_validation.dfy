/**
 * The validation layer: the four route schemas as constant data and the
 * decoders that turn an accepted request part into typed values. Each
 * decoder's contract states the acceptance rule field by field, connected to
 * the generic reading of the schema in `JsonSchema`.
 */
module TripValidation {
  import opened Wrappers
  import opened JsonSchema
  import opened TripModel

  function Rule(name: string, ty: JsonType): Property {
    Property(name, ty, None, None, None, None, None)
  }

  /** The request-body properties shared by create and update. */
  const TripPlanProperties: seq<Property> := [
    Rule("title", StringType),
    Rule("destination", StringType),
    Rule("days", IntegerType).(minimum := Some(1.0)),
    Rule("budget", NumberType).(minimum := Some(0.0))
  ]

  /** Create body: all four fields required; other keys are not restricted. */
  const TripPlanSchema: ObjectSchema :=
    ObjectSchema(["title", "destination", "days", "budget"], TripPlanProperties, true)

  /** Update body: the same properties, none required; other keys are not restricted. */
  const TripPlanUpdateSchema: ObjectSchema := ObjectSchema([], TripPlanProperties, true)

  /** Path parameters: `id` is a string of exactly 24 characters. */
  const IdParamSchema: ObjectSchema :=
    ObjectSchema(["id"], [Rule("id", StringType).(minLength := Some(24), maxLength := Some(24))], true)

  const QueryKeys: set<string> := {"destination", "minBudget", "maxBudget", "page", "limit"}

  /** List query string: five optional keys, defaults for `page` and `limit`, nothing else allowed. */
  const ListQuerySchema: ObjectSchema :=
    ObjectSchema([],
      [ Rule("destination", StringType),
        Rule("minBudget", NumberType).(minimum := Some(0.0)),
        Rule("maxBudget", NumberType).(minimum := Some(0.0)),
        Rule("page", IntegerType).(minimum := Some(1.0), defaultValue := Some(JNumber(1.0))),
        Rule("limit", IntegerType).(minimum := Some(1.0), maximum := Some(100.0), defaultValue := Some(JNumber(10.0))) ],
      false)

  predicate IsString(obj: Payload, key: string) {
    key in obj && obj[key].JString?
  }

  predicate IsNumberAtLeast(obj: Payload, key: string, min: real) {
    key in obj && obj[key].JNumber? && obj[key].n >= min
  }

  predicate IsIntegerAtLeast(obj: Payload, key: string, min: real) {
    IsNumberAtLeast(obj, key, min) && IsIntegral(obj[key].n)
  }

  /** The create rule: every field present and of its type, `days` an integer >= 1, `budget` >= 0. */
  predicate CreateBodyOk(body: Payload) {
    && IsString(body, "title")
    && IsString(body, "destination")
    && IsIntegerAtLeast(body, "days", 1.0)
    && IsNumberAtLeast(body, "budget", 0.0)
  }

  /** The update rule: every field optional, but a present field obeys its create rule. */
  predicate UpdateBodyOk(body: Payload) {
    && ("title" in body ==> IsString(body, "title"))
    && ("destination" in body ==> IsString(body, "destination"))
    && ("days" in body ==> IsIntegerAtLeast(body, "days", 1.0))
    && ("budget" in body ==> IsNumberAtLeast(body, "budget", 0.0))
  }

  /** The query rule: only the five keys, each optional and of its type and range. */
  predicate QueryOk(query: Payload) {
    && (forall k :: k in query ==> k in QueryKeys)
    && ("destination" in query ==> IsString(query, "destination"))
    && ("minBudget" in query ==> IsNumberAtLeast(query, "minBudget", 0.0))
    && ("maxBudget" in query ==> IsNumberAtLeast(query, "maxBudget", 0.0))
    && ("page" in query ==> IsIntegerAtLeast(query, "page", 1.0))
    && ("limit" in query ==> IsIntegerAtLeast(query, "limit", 1.0) && query["limit"].n <= 100.0)
  }

  lemma TripPlanPropertiesMeaning(obj: Payload)
    ensures (forall i :: 0 <= i < |TripPlanProperties| && TripPlanProperties[i].name in obj ==>
               Conforms(TripPlanProperties[i], obj[TripPlanProperties[i].name]))
            <==> UpdateBodyOk(obj)
  {
    var ps := TripPlanProperties;
    if UpdateBodyOk(obj) {
      forall i | 0 <= i < |ps| && ps[i].name in obj ensures Conforms(ps[i], obj[ps[i].name]) {
        assert i == 0 || i == 1 || i == 2 || i == 3;
      }
    } else {
      assert ps[0].name == "title" && ps[1].name == "destination";
      assert ps[2].name == "days" && ps[3].name == "budget";
    }
  }

  lemma CreateSchemaMeaning(body: Payload)
    ensures Accepts(TripPlanSchema, body) <==> CreateBodyOk(body)
  {
    var req := TripPlanSchema.required;
    TripPlanPropertiesMeaning(body);
    if CreateBodyOk(body) {
      forall i | 0 <= i < |req| ensures req[i] in body {
        assert i == 0 || i == 1 || i == 2 || i == 3;
      }
    } else if forall i :: 0 <= i < |req| ==> req[i] in body {
      assert req[0] in body && req[1] in body && req[2] in body && req[3] in body;
    }
  }

  /**
   * Accepts exactly the bodies meeting the create rule and returns their four
   * fields; keys outside the four (a client-sent `createdAt` among them) are
   * neither checked nor kept.
   */
  function ValidateCreate(body: Payload): (r: Result<TripFields, ValidationError>)
    ensures r.Ok? <==> CreateBodyOk(body)
    ensures r.Ok? ==> r.value == TripFields(body["title"].s, body["destination"].s,
                                            body["days"].n.Floor, body["budget"].n)
    ensures r.Ok? ==> r.value.days >= 1 && r.value.budget >= 0.0
    ensures r.Err? ==> r.error != AdditionalProperty && FirstError(TripPlanSchema, body) == Some(r.error)
  {
    CreateSchemaMeaning(body);
    match Validate(TripPlanSchema, body)
    case Err(e) => Err(e)
    case Ok(_) =>
      Ok(TripFields(body["title"].s, body["destination"].s, body["days"].n.Floor, body["budget"].n))
  }

  /**
   * Accepts exactly the bodies meeting the update rule (the empty body among
   * them) and returns the supplied declared fields as a patch.
   */
  function ValidateUpdate(body: Payload): (r: Result<Patch, ValidationError>)
    ensures r.Ok? <==> UpdateBodyOk(body)
    ensures r.Ok? ==> r.value.title == (if "title" in body then Some(body["title"].s) else None)
    ensures r.Ok? ==> r.value.destination == (if "destination" in body then Some(body["destination"].s) else None)
    ensures r.Ok? ==> r.value.days == (if "days" in body then Some(body["days"].n.Floor) else None)
    ensures r.Ok? ==> r.value.budget == (if "budget" in body then Some(body["budget"].n) else None)
    ensures r.Ok? ==> PatchRespectsMinimums(r.value)
    ensures r.Err? ==> r.error.InvalidProperty? && FirstError(TripPlanUpdateSchema, body) == Some(r.error)
  {
    TripPlanPropertiesMeaning(body);
    match Validate(TripPlanUpdateSchema, body)
    case Err(e) => Err(e)
    case Ok(_) =>
      Ok(Patch(
        if "title" in body then Some(body["title"].s) else None,
        if "destination" in body then Some(body["destination"].s) else None,
        if "days" in body then Some(body["days"].n.Floor) else None,
        if "budget" in body then Some(body["budget"].n) else None))
  }

  const BodyKeys: set<string> := {"title", "destination", "days", "budget"}

  lemma UndeclaredBodyKey(key: string)
    requires key !in BodyKeys
    ensures !Declared(TripPlanProperties, key)
  {
  }

  /**
   * A key other than the four declared fields has no effect on create: a
   * `createdAt` (or any other extra key) in the body is neither refused nor
   * used.
   */
  lemma CreateIgnoresUndeclaredKey(body: Payload, key: string, v: Json)
    requires key !in BodyKeys
    ensures ValidateCreate(body[key := v]) == ValidateCreate(body)
  {
    UndeclaredBodyKey(key);
    FirstErrorIgnoresUndeclared(TripPlanSchema, body, key, v);
  }

  /** Update accepts extra keys but only the four declared fields reach the patch. */
  lemma UpdateIgnoresUndeclaredKey(body: Payload, key: string, v: Json)
    requires key !in BodyKeys
    ensures ValidateUpdate(body[key := v]) == ValidateUpdate(body)
  {
    UndeclaredBodyKey(key);
    FirstErrorIgnoresUndeclared(TripPlanUpdateSchema, body, key, v);
  }

  /** Accepts exactly an `id` that is a string of length 24; its characters are not checked. */
  function ValidateId(params: Payload): (r: Result<string, ValidationError>)
    ensures r.Ok? <==> IsString(params, "id") && |params["id"].s| == 24
    ensures r.Ok? ==> r.value == params["id"].s
    ensures r.Err? && "id" !in params ==> r.error == MissingProperty("id")
    ensures r.Err? ==> FirstError(IdParamSchema, params) == Some(r.error)
  {
    var schema := IdParamSchema;
    assert Accepts(schema, params) <==> IsString(params, "id") && |params["id"].s| == 24 by {
      assert schema.required[0] == "id";
      assert schema.properties[0].name == "id";
    }
    match Validate(schema, params)
    case Err(e) => Err(e)
    case Ok(_) => Ok(params["id"].s)
  }

  /** A validated list query with its defaults filled in. */
  datatype ListQuery = ListQuery(
    destination: Option<string>,
    minBudget: Option<real>,
    maxBudget: Option<real>,
    page: int,
    limit: int)

  lemma QuerySchemaMeaning(query: Payload)
    ensures Accepts(ListQuerySchema, query) <==> QueryOk(query)
  {
    var ps := ListQuerySchema.properties;
    assert ps[0].name == "destination" && ps[1].name == "minBudget" && ps[2].name == "maxBudget";
    assert ps[3].name == "page" && ps[4].name == "limit";
    assert forall k :: Declared(ps, k) <==> k in QueryKeys by {
      forall k ensures Declared(ps, k) <==> k in QueryKeys {
        if Declared(ps, k) {
          var i :| 0 <= i < |ps| && ps[i].name == k;
          assert i == 0 || i == 1 || i == 2 || i == 3 || i == 4;
        }
      }
    }
    if QueryOk(query) {
      forall i | 0 <= i < |ps| && ps[i].name in query ensures Conforms(ps[i], query[ps[i].name]) {
        assert i == 0 || i == 1 || i == 2 || i == 3 || i == 4;
      }
    }
  }

  /** The query schema gives `page` the default 1 and `limit` the default 10. */
  lemma QueryDefaultsDeclared()
    ensures var ps := ListQuerySchema.properties;
            && ps[3].name == "page" && SuppliesDefault(ps, 3, "page") && ps[3].defaultValue == Some(JNumber(1.0))
            && ps[4].name == "limit" && SuppliesDefault(ps, 4, "limit") && ps[4].defaultValue == Some(JNumber(10.0))
  {
    var ps := ListQuerySchema.properties;
    assert ps[0].name == "destination" && ps[1].name == "minBudget" && ps[2].name == "maxBudget";
  }

  /**
   * Accepts exactly the queries meeting the query rule, and decodes them;
   * `page` and `limit` come from the validated query, where the schema's
   * defaults (1 and 10) stand in for absent keys.
   */
  function ValidateQuery(query: Payload): (r: Result<ListQuery, ValidationError>)
    ensures r.Ok? <==> QueryOk(query)
    ensures r.Err? ==> FirstError(ListQuerySchema, query) == Some(r.error)
    ensures r.Ok? ==> r.value.destination == (if "destination" in query then Some(query["destination"].s) else None)
    ensures r.Ok? ==> r.value.minBudget == (if "minBudget" in query then Some(query["minBudget"].n) else None)
    ensures r.Ok? ==> r.value.maxBudget == (if "maxBudget" in query then Some(query["maxBudget"].n) else None)
    ensures r.Ok? ==> r.value.page == (if "page" in query then query["page"].n.Floor else 1)
    ensures r.Ok? ==> r.value.limit == (if "limit" in query then query["limit"].n.Floor else 10)
    ensures r.Ok? ==> r.value.page >= 1 && 1 <= r.value.limit <= 100
    ensures r.Ok? && r.value.minBudget.Some? ==> r.value.minBudget.value >= 0.0
    ensures r.Ok? && r.value.maxBudget.Some? ==> r.value.maxBudget.value >= 0.0
  {
    QuerySchemaMeaning(query);
    match Validate(ListQuerySchema, query)
    case Err(e) => Err(e)
    case Ok(d) =>
      QueryDefaultsDeclared();
      DefaultFilled(ListQuerySchema, query, 3);
      DefaultFilled(ListQuerySchema, query, 4);
      Ok(ListQuery(
        if "destination" in query then Some(query["destination"].s) else None,
        if "minBudget" in query then Some(query["minBudget"].n) else None,
        if "maxBudget" in query then Some(query["maxBudget"].n) else None,
        d["page"].n.Floor,
        d["limit"].n.Floor))
  }
}

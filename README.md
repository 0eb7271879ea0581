# Trip-plan record service

A Dafny model of the trip-plan record service of the Fastify backend: the
request schemas that guard its three routes, the route handlers for create,
list and update, and the document schema of a stored trip plan.

A trip plan has a `title`, a `destination`, a number of `days`, a `budget`
and a `createdAt` time, plus an identifier assigned by the store.

- **Create** checks the body, stamps `createdAt` with the current time and
  saves the record. The reply is 201 with the stored record.
- **List** checks the query string and builds a filter. The filter is an
  exact `destination` (only when one is given and non-empty) and an
  inclusive `budget` range (only for the bounds given). The handler then
  skips `(page - 1) * limit` matching records and returns at most `limit`,
  in store order.
- **Update** checks the 24-character id and the partial body. The id is cast
  to an identifier (24 hex digits, either letter case; otherwise a cast
  error, 500). It sets the supplied fields of that record and replies with
  the record as it is afterwards, or with 404 "Trip not found".

Files and modules:

- `wrappers.dfy` (`Wrappers`): `Option`, `Result`, `Min`, `Max`.
- `json_schema.dfy` (`JsonSchema`): JSON values and the part of JSON Schema
  the routes use. A schema is constant data. `Validate` reports the first
  violation or accepts. `Accepts` is the schema's declarative meaning.
- `object_id.dfy` (`ObjectId`): shows an identifier as 24 lower-case hex
  digits, the shape of a document id's `toString()`. `ParseHex` reads it
  back, in either letter case. `Cast` turns a client's id string into an
  identifier the way a lookup by id does.
- `trip_model.dfy` (`TripModel`): the record, the reply shape, the partial
  update, and the document schema's rules from `trips.model.ts`.
- `trip_store.dfy` (`Store`): the class `TripStore`, which stands for the
  document store: records in insertion order plus an id counter. It has
  `Save`, a filtered cursor `Find`, and `FindByIdAndUpdate`, each specified
  by pure functions (`Keep`, `Paginate`, `FirstIndex`, `UpdateState`).
- `trip_validation.dfy` (`TripValidation`): the four route schemas as
  constants, and validators that turn accepted input into typed values.
- `trip_routes.dfy` (`TripRoutes`): the three handlers, the filter builder,
  response shaping and the list properties.

The current time is a parameter (`now`). A time is an integer number of
milliseconds. Budgets are exact reals. A JSON number is "integer" when it
has no fractional part, as JSON Schema defines it.

The code departs from the intended record rules in three places, and the
model follows the code:

- Create's body schema does not check that `title` and `destination` are
  non-empty. The document schema's `required` does check it, when the
  record is saved. So an empty title is refused with a save error (500), not
  a validation error (400). See `Store.TripStore.Save`.
- Find-by-id-and-update runs no save-time validation. An update body
  `{"title": ""}` is accepted and stored (`TripRoutes.UpdateMayEmptyTitle`).
  So the model's store invariant (`Store.TripStore.Valid`) holds the
  numeric minimums (`days >= 1`, `budget >= 0`) and unique, increasing ids,
  but not non-empty strings. The minimums hold in the model because its
  update (`TripModel.Patch`) carries only the four typed, validated fields.
  The code does not keep them: see the operator keys under "Left out".
- The update body schema does not close the object. Extra keys are accepted.
  The model keeps only the four declared fields in the patch
  (`TripValidation.UpdateIgnoresUndeclaredKey`). See "Left out" for what the
  document store would do with an extra key such as `createdAt`.

## Model

| member | source | states |
|---|---|---|
| `JsonSchema.Validate` | backend-fastify/index.ts:16-47 | a request part is accepted exactly when the declarative reading of its schema holds: every required key present, no undeclared key when the schema is closed, every present declared key of its type and within its bounds; accepted input keeps its values, every absent key with a declared default receives that default, and no other key is added; a refusal carries the first error `FirstError` finds |
| `JsonSchema.PropertyViolation` | backend-fastify/index.ts:21-24 | no violation exactly when the value has the declared type and meets minimum, maximum, minLength and maxLength; a reported violation is one the value really commits |
| `JsonSchema.MissingRequired` | backend-fastify/index.ts:19 | reports nothing exactly when every required key is present; a reported key is required and absent |
| `JsonSchema.FirstInvalid` | backend-fastify/index.ts:20-25 | reports nothing exactly when every present declared property conforms to its rule; a reported error names a present declared property and the keyword it really breaks |
| `JsonSchema.FirstError` | backend-fastify/index.ts:16-47 | every reported error is real: a missing key is required and absent, an additional-property error means a closed schema and an undeclared key, an invalid property names a present declared property and the keyword it breaks |
| `JsonSchema.UndeclaredKey` | backend-fastify/index.ts:81 | a closed schema refuses exactly the objects holding a key outside its properties; an open schema refuses none |
| `JsonSchema.WithDefaults` | backend-fastify/index.ts:78-79 | filling in defaults keeps every supplied key and value |
| `JsonSchema.WithDefaultsFills` | backend-fastify/index.ts:78-79 | an absent key receives the default of the first property of that name that declares one |
| `JsonSchema.WithDefaultsAdds` | backend-fastify/index.ts:78-79 | a key that filling adds was absent and names a property that declares a default |
| `JsonSchema.DefaultFilled` | backend-fastify/index.ts:78-79 | after validation a property with a default is present: the supplied value, else its default |
| `JsonSchema.FirstErrorIgnoresUndeclared` | backend-fastify/index.ts:16-39 | an open schema's verdict does not change when a key it does not declare is added or replaced |
| `TripValidation.CreateSchemaMeaning` | backend-fastify/index.ts:16-27 | the create schema accepts exactly the bodies in which title and destination are strings, days an integer >= 1 and budget a number >= 0, all four present |
| `TripValidation.ValidateCreate` | backend-fastify/index.ts:16-27 | accepts exactly the create rule and returns the four supplied values, with days >= 1 and budget >= 0; a refusal is never about extra keys and is the schema's first real error |
| `TripValidation.CreateIgnoresUndeclaredKey` | backend-fastify/index.ts:54 | a createdAt or any other key besides the four fields in the create body changes neither the verdict nor the four validated fields (an `_id` is the exception in the source, see Left out) |
| `TripValidation.TripPlanPropertiesMeaning` | backend-fastify/index.ts:29-39 | the shared property rules hold exactly when each field that is present is of its type and range |
| `TripValidation.ValidateUpdate` | backend-fastify/index.ts:29-39 | every field optional, a present field obeys its create rule, the empty body accepted; the patch holds exactly the supplied declared fields and respects the minimums; a refusal names a present field and the rule it breaks |
| `TripValidation.UpdateIgnoresUndeclaredKey` | backend-fastify/index.ts:29-39 | keys outside the four declared fields are accepted and left out of the patch |
| `TripValidation.ValidateId` | backend-fastify/index.ts:41-47 | the id is accepted exactly when it is a string of length 24, whatever its characters; a missing id is reported as missing; every refusal is the schema's first real error |
| `TripValidation.QuerySchemaMeaning` | backend-fastify/index.ts:72-82 | the query schema accepts exactly: no key outside the five, destination a string, minBudget and maxBudget numbers >= 0, page an integer >= 1, limit an integer in 1..100 |
| `TripValidation.ValidateQuery` | backend-fastify/index.ts:72-92 | accepts exactly the query rule; page and limit are read from the validated query, so they are the supplied values or the schema defaults 1 and 10; the decoded bounds are the supplied ones; a refusal is the schema's first real error |
| `ObjectId.ParseHexOfHex` | backend-fastify/index.ts:57 | reading back the hex digits of an identifier that fits gives the identifier |
| `ObjectId.TokenInjective` | backend-fastify/index.ts:57 | distinct identifiers in the id space have distinct 24-character tokens |
| `ObjectId.ParseHexDefined` | backend-fastify/index.ts:127 | reading hex digits succeeds exactly when every character is a hex digit of either case, and the value fits in the digits read |
| `ObjectId.Cast` | backend-fastify/index.ts:127 | an id string casts exactly when it is 24 hex digits of either case; the identifier is their value and lies in the id space |
| `ObjectId.CastToken` | backend-fastify/index.ts:127 | the rendered token of an identifier casts back to that identifier |
| `ObjectId.ParseHexIgnoresCase` | backend-fastify/index.ts:127 | two strings that agree up to the case of their hex letters read as the same value |
| `ObjectId.CastIgnoresCase` | backend-fastify/index.ts:127 | two id strings that agree up to the case of their hex letters cast to the same result |
| `ObjectId.HexIsLowerCase` | backend-fastify/index.ts:57 | a rendered token has no upper-case letters |
| `ObjectId.CastCaseVariant` | backend-fastify/index.ts:127 | any spelling of an identifier's token, in any letter case, casts to that identifier |
| `ObjectId.CastUpperCaseExample` | backend-fastify/index.ts:127 | the upper-case spelling of identifier 10's token casts to 10 |
| `TripModel.SaveViolation` | backend-fastify/models/trips.model.ts:11-17 | a document is refused at save exactly when title or destination is empty, days < 1 or budget < 0; the error names the first failing path in schema order (title, destination, days, budget) |
| `TripModel.NewDocument` | backend-fastify/models/trips.model.ts:16 | the document keeps the supplied fields; createdAt defaults to the current time when not supplied |
| `TripModel.ApplyPatch` | backend-fastify/index.ts:127-131 | only supplied fields change; id and createdAt never change; the minimums are preserved by a patch that respects them; the empty patch changes nothing |
| `TripModel.ApplyPatchIdempotent` | backend-fastify/index.ts:127-131 | applying the same patch to a record twice gives the record of applying it once |
| `TripModel.ToResponse` | backend-fastify/index.ts:56-63 | the reply has the record's field values and a 24-character id string that reads back as the record's identifier |
| `Store.Keep` | backend-fastify/index.ts:102 | the kept records are exactly the stored records that match, no more than there were |
| `Store.KeepAppend` | backend-fastify/index.ts:102 | filtering distributes over concatenation, so matches keep store order |
| `Store.KeepIdsIncreasing` | backend-fastify/index.ts:102 | the filtered sequence keeps identifiers strictly increasing |
| `Store.Paginate` | backend-fastify/index.ts:103-104 | the page is the slice starting at skip, of length min(limit, max(0, n - skip)) |
| `Store.PaginateSnoc` | backend-fastify/index.ts:103-104 | one more matching record extends the page exactly when its position falls in the page's window |
| `Store.ConsecutivePages` | backend-fastify/index.ts:103-104 | a page followed by the page that starts where it ends is the slice of length 2 * limit at the same start |
| `Store.PagesDisjoint` | backend-fastify/index.ts:103-104 | with distinct identifiers, a page shares no record with a page that starts after it ends |
| `Store.PageOffsetsOrdered` | backend-fastify/index.ts:103 | page m > n starts at or after the end of page n |
| `Store.FirstIndex` | backend-fastify/index.ts:127-131 | the found position holds a record with the given identifier and no earlier one does; no position means no record has it |
| `Store.FirstIndexSameIds` | backend-fastify/index.ts:127-131 | lookup by id depends only on the identifiers |
| `Store.UpdateState` | backend-fastify/index.ts:127-131 | an update keeps the record count, every identifier and every createdAt |
| `Store.UpdateChangesOnlyTarget` | backend-fastify/index.ts:127-135 | with distinct ids, exactly the record with the given id gets the patch, every other record is unchanged, and an absent id leaves the store as it was |
| `Store.UpdateIdempotent` | backend-fastify/index.ts:127-131 | applying the same partial update twice gives the state of applying it once |
| `Store.PrefixStep` | backend-fastify/index.ts:102-105 | scanning one more record adds one to the match count exactly when it matches, and adds it to the page exactly when its match position falls in the window |
| `Store.TripStore.constructor` | backend-fastify/models/trips.model.ts:11-19 | an empty store satisfies the store invariant |
| `Store.TripStore.Save` | backend-fastify/index.ts:54-55 | a document the schema refuses is not stored and the error names the path; otherwise exactly one record is appended under a fresh identifier and token, with the given fields and createdAt; the invariant is kept |
| `Store.TripStore.IndexOf` | backend-fastify/index.ts:127 | the scan finds the first record with the given identifier, or reports none |
| `Store.TripStore.Find` | backend-fastify/index.ts:102-105 | the cursor returns the skip/limit page of the matching records in store order |
| `Store.TripStore.FindByIdAndUpdate` | backend-fastify/index.ts:127-131 | an id that does not cast is a cast error and changes nothing; otherwise the new records are the update state of the old for the cast identifier, it returns the post-update record, or none exactly when no record has that identifier; never inserts; the invariant is kept |
| `TripRoutes.BuildFilter` | backend-fastify/index.ts:94-100 | the filter matches a record exactly when the query admits it (exact non-empty destination, each given budget bound inclusive); the destination key only for a non-empty destination, the budget key only when a bound is given |
| `TripRoutes.ShapeAll` | backend-fastify/index.ts:107-116 | shaping keeps length and order and shapes each record |
| `TripRoutes.ListSound` | backend-fastify/index.ts:94-105 | every listed record is a stored record that satisfies the query |
| `TripRoutes.ListIsSlice` | backend-fastify/index.ts:102-105 | a list is the contiguous slice of the matching records at (page - 1) * limit of length min(limit, max(0, matches - skip)) |
| `TripRoutes.NextPageContinues` | backend-fastify/index.ts:102-105 | pages n and n + 1 share no record and together form the slice of 2 * limit matches starting at page n |
| `TripRoutes.NextPageAppends` | backend-fastify/index.ts:102-105 | page n followed by page n + 1 is the slice of 2 * limit matches starting at page n |
| `TripRoutes.PageOfSameQuery` | backend-fastify/index.ts:102-105 | any page of a query is the slice of that query's matches at its own offset |
| `TripRoutes.LaterPagesDisjoint` | backend-fastify/index.ts:102-105 | with distinct identifiers, no record appears on two different pages of the same query |
| `TripRoutes.UpdateMayEmptyTitle` | backend-fastify/index.ts:127-131 | an update body with an empty title is accepted and stored, though save-time validation would refuse it |
| `TripRoutes.HandleCreate` | backend-fastify/index.ts:50-65 | status 400 for a refused body, 201 when created, 500 for a save refusal; a refused body changes nothing; a created record is appended with the body's four fields and createdAt = now, under an id distinct from all others, and the reply carries those values; a save refusal changes nothing |
| `TripRoutes.HandleList` | backend-fastify/index.ts:67-118 | status 400 with the validation error for a refused query; otherwise status 200 and the reply is the shaped page of admitted records |
| `TripRoutes.HandleUpdate` | backend-fastify/index.ts:120-145 | status 400 for a bad id or body, 500 for an id that does not cast, 404 for a missing record, 200 otherwise; a bad id or body changes nothing; an id that does not cast answers 500 with the store unchanged; otherwise the store becomes the update state for the cast identifier; a missing record answers "Trip not found" with the store unchanged; a found one answers the post-update record; the count never changes |

## Left out

- Transport: creating the server, CORS, `listen` and the database
  connection plugin. Also the front end: pages, the login check, the
  session flag and route guards.
- Type coercion by the request validator. With the framework's default
  configuration, values are coerced to the declared type before they are
  checked, in query strings and in bodies alike. Query-string text becomes
  numbers, a body `{"days": "3"}` is accepted as 3, `{"budget": null}`
  becomes 0 and `{"title": 5}` becomes "5". The model takes already-typed
  JSON values and refuses a value of the wrong type.
- The validator's removal of extra keys. With the framework's default
  configuration (`removeAdditional` on), `additionalProperties: false`
  strips unknown query keys instead of rejecting them. The model rejects them, as the schema declares.
- Which violation is reported when several exist, and the error wording. The
  model reports the first one in a fixed order (required keys, closed
  object, then properties in declaration order). The document store's
  save-time validation error lists every failing path. The model reports
  only the first one in schema order (`TripModel.SaveViolation`); that is
  the model's choice.
- Non-object bodies and array or object field values. A payload is always
  an object here. `Json` has strings, numbers, booleans and null.
- Identifier generation. Identifiers come from a counter and are shown as 24
  hex digits. `IdSpaceExhausted` (counter past 16^24) is a model-only save
  error.
- Client-chosen identifiers on create. The create handler spreads the whole
  body into the new document, so the source keeps a castable `_id` from the
  body and the store refuses a duplicate one at save. The model always
  assigns the next counter value and never reads `_id`; this is a
  simplification of the model, not the source's behaviour.
- `ObjectId.Cast` accepts only 24-character strings. The document store's
  cast also accepts a 12-character string as raw bytes; the id schema never
  lets one through.
- The cast error's reply body and wording. The model answers 500 with the
  offending string.
- Extra keys in an update body that are document-schema paths. The document
  store would apply `createdAt` from an update body, because the update
  schema does not close the object. The model keeps `createdAt` fixed and
  applies only the four declared fields.
- Update operator keys. The update body goes to the store unchanged as the
  update document, and the store runs no validators on it. So a body with
  `$`-operator keys passes validation and the store executes it:
  `{"$set": {"days": 0}}` or `{"$inc": {"budget": -500}}` breaks the
  minimums, and `{"$unset": {"title": 1}}` removes a required field. The
  model's patch has only the four fields, so none of this is modelled, and
  its `Valid` invariant is stronger than what the code keeps.
- Store.TripStore.Find: requires `limit >= 1`. The store's "limit 0 means
  no limit" is not modelled, because the query schema never lets 0 through.
- Store order is assumed to be insertion order (the store's natural order
  with no sort).
- Concurrency: async scheduling and last-writer-wins between concurrent
  updates of the same record are outside this sequential model.
- Floating point: all JSON numbers are doubles in the code. Here `budget`,
  `minBudget` and `maxBudget` are exact reals, `days` an exact integer, and
  dates integer milliseconds.
- The range of `page` and `limit`, and of the skip count. The code computes
  `(page - 1) * limit` in double precision, and `page` has no maximum, so
  beyond 2^53 the offset rounds. The store takes the skip as a 64-bit
  integer and refuses a larger one, which becomes a 500. The model's skip
  (`TripRoutes.PageOffset`) is an exact, unbounded natural number, so such
  a query gets an exact, usually empty, page with 200.
- Storage failures other than schema refusals (lost connection and the
  like) are not modelled.

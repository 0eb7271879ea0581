/**
 * The trip-plan record and the rules of its document schema: `title` and
 * `destination` are required strings, `days` a required number of at least 1,
 * `budget` a required number of at least 0, and `createdAt` a date that
 * defaults to the current time. Also the outward record shape, which adds the
 * identifier as a string, and the partial update that changes only the
 * fields it supplies.
 */
module TripModel {
  import opened Wrappers
  import ObjectId

  /** Milliseconds since the epoch; the current time is always passed in. */
  type Time = int

  /** The four client-supplied fields of a create request, already type-checked. */
  datatype TripFields = TripFields(title: string, destination: string, days: int, budget: real)

  /** A stored document. `id` is assigned by the store and never changes. */
  datatype Record = Record(
    id: nat,
    title: string,
    destination: string,
    days: int,
    budget: real,
    createdAt: Time)

  /** The record as it is sent back: the same fields plus the identifier token. */
  datatype TripResponse = TripResponse(
    id: string,
    title: string,
    destination: string,
    days: int,
    budget: real,
    createdAt: Time)

  /** A partial update over the four declared fields; `None` leaves a field alone. */
  datatype Patch = Patch(
    title: Option<string>,
    destination: Option<string>,
    days: Option<int>,
    budget: Option<real>)

  /** Why the store refused to save a document. */
  datatype SaveError =
    | Required(path: string)
    | BelowMin(path: string, min: real)
    | IdSpaceExhausted

  /** The numeric minimums of the schema; every stored record keeps them. */
  predicate MeetsMinimums(r: Record) {
    r.days >= 1 && r.budget >= 0.0
  }

  predicate PatchRespectsMinimums(p: Patch) {
    (p.days.Some? ==> p.days.value >= 1) && (p.budget.Some? ==> p.budget.value >= 0.0)
  }

  /** Everything the schema demands when a document is saved. A required string must not be empty. */
  predicate Saveable(f: TripFields) {
    f.title != "" && f.destination != "" && f.days >= 1 && f.budget >= 0.0
  }

  /** The first schema path, in declaration order, whose rule a new document breaks. */
  function SaveViolation(f: TripFields): (r: Option<SaveError>)
    ensures r.None? <==> Saveable(f)
    ensures r == Some(Required("title")) <==> f.title == ""
    ensures r == Some(Required("destination")) <==> f.title != "" && f.destination == ""
    ensures r == Some(BelowMin("days", 1.0)) <==> f.title != "" && f.destination != "" && f.days < 1
    ensures r == Some(BelowMin("budget", 0.0)) <==>
              f.title != "" && f.destination != "" && f.days >= 1 && f.budget < 0.0
    ensures r.Some? ==> r.value != IdSpaceExhausted
  {
    if f.title == "" then Some(Required("title"))
    else if f.destination == "" then Some(Required("destination"))
    else if f.days < 1 then Some(BelowMin("days", 1.0))
    else if f.budget < 0.0 then Some(BelowMin("budget", 0.0))
    else None
  }

  /** Builds a document; the `createdAt` default is the current time. */
  function NewDocument(id: nat, f: TripFields, createdAt: Option<Time>, now: Time): (r: Record)
    ensures r.id == id && r.title == f.title && r.destination == f.destination
    ensures r.days == f.days && r.budget == f.budget
    ensures createdAt.None? ==> r.createdAt == now
    ensures createdAt.Some? ==> r.createdAt == createdAt.value
    ensures Saveable(f) ==> MeetsMinimums(r)
  {
    Record(id, f.title, f.destination, f.days, f.budget, createdAt.GetOr(now))
  }

  /** Sets exactly the supplied fields; the identifier and `createdAt` are never touched. */
  function ApplyPatch(r: Record, p: Patch): (u: Record)
    ensures u.id == r.id && u.createdAt == r.createdAt
    ensures u.title == p.title.GetOr(r.title)
    ensures u.destination == p.destination.GetOr(r.destination)
    ensures u.days == p.days.GetOr(r.days)
    ensures u.budget == p.budget.GetOr(r.budget)
    ensures MeetsMinimums(r) && PatchRespectsMinimums(p) ==> MeetsMinimums(u)
    ensures p == Patch(None, None, None, None) ==> u == r
  {
    Record(r.id, p.title.GetOr(r.title), p.destination.GetOr(r.destination),
           p.days.GetOr(r.days), p.budget.GetOr(r.budget), r.createdAt)
  }

  lemma ApplyPatchIdempotent(r: Record, p: Patch)
    ensures ApplyPatch(ApplyPatch(r, p), p) == ApplyPatch(r, p)
  {
  }

  /** The outward shape: same field values, identifier rendered as its token. */
  function ToResponse(r: Record): (t: TripResponse)
    ensures |t.id| == ObjectId.TokenLength
    ensures r.id < ObjectId.IdSpace ==> ObjectId.ParseHex(t.id) == Some(r.id)
    ensures t.title == r.title && t.destination == r.destination
    ensures t.days == r.days && t.budget == r.budget && t.createdAt == r.createdAt
  {
    var token := ObjectId.Token(r.id);
    assert r.id < ObjectId.IdSpace ==> ObjectId.ParseHex(token) == Some(r.id) by {
      if r.id < ObjectId.IdSpace { ObjectId.TokenRoundTrip(r.id); }
    }
    TripResponse(token, r.title, r.destination, r.days, r.budget, r.createdAt)
  }
}

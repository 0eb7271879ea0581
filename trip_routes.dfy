/**
 * The three trip-plan routes: create (stamp `createdAt`, save, reply 201 with
 * the stored record), list (build a conjunctive filter, skip and limit over
 * the matching records, shape each one) and update (find by id, apply the
 * supplied fields, reply with the record afterwards or 404). Each route first
 * validates its request parts; a rejected request never reaches the store.
 */
module TripRoutes {
  import opened Wrappers
  import opened JsonSchema
  import opened TripModel
  import opened TripValidation
  import opened Store
  import ObjectId

  const NotFoundMessage: string := "Trip not found"

  datatype CreateReply =
    | Created(trip: TripResponse)
    | CreateRejected(error: ValidationError)
    | CreateFailed(failure: SaveError)
  {
    function Status(): nat {
      match this
      case Created(_) => 201
      case CreateRejected(_) => 400
      case CreateFailed(_) => 500
    }
  }

  datatype ListReply = Listed(trips: seq<TripResponse>) | ListRejected(error: ValidationError) {
    function Status(): nat {
      if Listed? then 200 else 400
    }
  }

  datatype UpdateReply =
    | Updated(trip: TripResponse)
    | UpdateRejected(error: ValidationError)
    | NotFound(message: string)
    | UpdateFailed(failure: CastError)
  {
    function Status(): nat {
      match this
      case Updated(_) => 200
      case UpdateRejected(_) => 400
      case NotFound(_) => 404
      case UpdateFailed(_) => 500
    }
  }

  /**
   * What a list query asks of a record: an exact destination when a
   * non-empty one is given (the empty string asks nothing), and each budget
   * bound that is given, both inclusive and independent.
   */
  predicate Admits(q: ListQuery, r: Record) {
    && (q.destination.Some? && q.destination.value != "" ==> r.destination == q.destination.value)
    && (q.minBudget.Some? ==> r.budget >= q.minBudget.value)
    && (q.maxBudget.Some? ==> r.budget <= q.maxBudget.value)
  }

  function AdmitsQuery(q: ListQuery): Record -> bool {
    r => Admits(q, r)
  }

  /**
   * Builds the store filter key by key: `destination` only for a non-empty
   * destination, and a `budget` condition only when a bound is given, with
   * `$gte` and `$lte` set for the bounds present.
   */
  method BuildFilter(q: ListQuery) returns (f: Filter)
    ensures f.destination.Some? <==> q.destination.Some? && q.destination.value != ""
    ensures f.budget.Some? <==> q.minBudget.Some? || q.maxBudget.Some?
    ensures forall r :: Matches(f, r) <==> Admits(q, r)
  {
    f := Filter(None, None);
    if q.destination.Some? && q.destination.value != "" {
      f := f.(destination := q.destination);
    }
    if q.minBudget.Some? || q.maxBudget.Some? {
      var range := BudgetRange(None, None);
      if q.minBudget.Some? {
        range := range.(gte := q.minBudget);
      }
      if q.maxBudget.Some? {
        range := range.(lte := q.maxBudget);
      }
      f := f.(budget := Some(range));
    }
  }

  /** Response shaping of a list: one outward record per stored record, in order. */
  function ShapeAll(rs: seq<Record>): (out: seq<TripResponse>)
    ensures |out| == |rs|
    ensures forall i :: 0 <= i < |rs| ==> out[i] == ToResponse(rs[i])
  {
    seq(|rs|, i requires 0 <= i < |rs| => ToResponse(rs[i]))
  }

  /** How many matching records page `page` skips. */
  function PageOffset(page: int, limit: int): (skip: nat)
    requires page >= 1 && limit >= 1
    ensures skip == (page - 1) * limit
  {
    assert (page - 1) * limit >= 0 by {
      assert page - 1 >= 0;
    }
    (page - 1) * limit
  }

  lemma NextOffset(page: int, limit: int)
    requires page >= 1 && limit >= 1
    ensures PageOffset(page + 1, limit) == PageOffset(page, limit) + limit
  {
    assert page * limit == (page - 1) * limit + limit;
  }

  /** The records a validated list query returns, before shaping. */
  function ListPage(rs: seq<Record>, q: ListQuery): seq<Record>
    requires q.page >= 1 && q.limit >= 1
  {
    Paginate(Keep(rs, AdmitsQuery(q)), PageOffset(q.page, q.limit), q.limit)
  }

  /** Every listed record is a stored record that satisfies the query. */
  lemma ListSound(rs: seq<Record>, q: ListQuery)
    requires q.page >= 1 && q.limit >= 1
    ensures forall i :: 0 <= i < |ListPage(rs, q)| ==> ListPage(rs, q)[i] in rs && Admits(q, ListPage(rs, q)[i])
  {
    var matching, skip := Keep(rs, AdmitsQuery(q)), PageOffset(q.page, q.limit);
    forall i | 0 <= i < |ListPage(rs, q)| ensures ListPage(rs, q)[i] in rs && Admits(q, ListPage(rs, q)[i]) {
      assert ListPage(rs, q)[i] == matching[skip + i];
      assert matching[skip + i] in matching;
    }
  }

  /**
   * A list returns the slice of the matching records (in store order) that
   * starts at `(page - 1) * limit`, of length `min(limit, max(0, matches - skip))`.
   */
  lemma ListIsSlice(rs: seq<Record>, q: ListQuery)
    requires q.page >= 1 && q.limit >= 1
    ensures var matching, skip := Keep(rs, AdmitsQuery(q)), (q.page - 1) * q.limit;
            && |ListPage(rs, q)| == Min(q.limit, Max(0, |matching| - skip))
            && forall i :: 0 <= i < |ListPage(rs, q)| ==> ListPage(rs, q)[i] == matching[skip + i]
  {
  }

  /** Pages of one query differ only in their offset into the same matching records. */
  lemma PageOfSameQuery(rs: seq<Record>, q: ListQuery, m: int)
    requires q.page >= 1 && q.limit >= 1 && m >= 1
    ensures ListPage(rs, q.(page := m)) == Paginate(Keep(rs, AdmitsQuery(q)), PageOffset(m, q.limit), q.limit)
  {
    KeepSame(rs, AdmitsQuery(q.(page := m)), AdmitsQuery(q));
  }

  /** Page `n + 1` continues page `n`: together they are the slice of `2 * limit` matches at page `n`. */
  lemma NextPageAppends(rs: seq<Record>, q: ListQuery)
    requires q.page >= 1 && q.limit >= 1
    ensures ListPage(rs, q) + ListPage(rs, q.(page := q.page + 1))
            == Paginate(Keep(rs, AdmitsQuery(q)), PageOffset(q.page, q.limit), 2 * q.limit)
  {
    var skip := PageOffset(q.page, q.limit);
    PageOfSameQuery(rs, q, q.page + 1);
    NextOffset(q.page, q.limit);
    ConsecutivePages(Keep(rs, AdmitsQuery(q)), skip, q.limit);
  }

  /**
   * Pages `n` and `n + 1` of the same query share no record, and together
   * they are the slice of `2 * limit` matching records that starts at page `n`.
   */
  lemma NextPageContinues(rs: seq<Record>, q: ListQuery)
    requires q.page >= 1 && q.limit >= 1 && IdsIncreasing(rs)
    ensures var next := q.(page := q.page + 1);
            && ListPage(rs, q) + ListPage(rs, next)
               == Paginate(Keep(rs, AdmitsQuery(q)), PageOffset(q.page, q.limit), 2 * q.limit)
            && forall x :: x in ListPage(rs, q) ==> x !in ListPage(rs, next)
  {
    NextPageAppends(rs, q);
    LaterPagesDisjoint(rs, q, q.page + 1);
  }

  /** No record is listed on two different pages of the same query. */
  lemma LaterPagesDisjoint(rs: seq<Record>, q: ListQuery, m: int)
    requires q.page >= 1 && q.limit >= 1 && IdsIncreasing(rs) && m > q.page
    ensures forall x :: x in ListPage(rs, q) ==> x !in ListPage(rs, q.(page := m))
  {
    var matching := Keep(rs, AdmitsQuery(q));
    PageOfSameQuery(rs, q, m);
    PageOffsetsOrdered(q.page, m, q.limit);
    KeepIdsIncreasing(rs, AdmitsQuery(q));
    PagesDisjoint(matching, PageOffset(q.page, q.limit), PageOffset(m, q.limit), q.limit);
  }

  /**
   * The update path runs no save-time validation: a body setting `title` to
   * the empty string is accepted and stored, although a create with that
   * title is refused when saved.
   */
  lemma UpdateMayEmptyTitle(r: Record)
    ensures ValidateUpdate(map["title" := JString("")]) == Ok(Patch(Some(""), None, None, None))
    ensures ApplyPatch(r, Patch(Some(""), None, None, None)).title == ""
    ensures SaveViolation(TripFields("", r.destination, r.days, r.budget)) == Some(Required("title"))
  {
  }

  /**
   * POST create. A body that fails validation is answered 400 and the store
   * is untouched. Otherwise the four fields are saved with `createdAt` set to
   * `now` (whatever the body said) under a fresh identifier, and the reply
   * carries the stored values; a save the schema refuses is answered 500.
   */
  method HandleCreate(store: TripStore, body: Payload, now: Time) returns (reply: CreateReply)
    requires store.Valid()
    modifies store
    ensures store.Valid()
    ensures ValidateCreate(body).Err? ==> reply == CreateRejected(ValidateCreate(body).error)
    ensures reply.Status() == if ValidateCreate(body).Err? then 400 else if reply.Created? then 201 else 500
    ensures reply.Created? <==>
              ValidateCreate(body).Ok? && Saveable(ValidateCreate(body).value) && old(store.nextId) < ObjectId.IdSpace
    ensures reply.Created? ==>
              var f := ValidateCreate(body).value;
              var rec := Record(old(store.nextId), f.title, f.destination, f.days, f.budget, now);
              && store.records == old(store.records) + [rec]
              && store.nextId == old(store.nextId) + 1
              && reply.trip == ToResponse(rec)
    ensures reply.Created? ==>
              forall i :: 0 <= i < |old(store.records)| ==> ObjectId.Token(old(store.records)[i].id) != reply.trip.id
    ensures ValidateCreate(body).Ok? && SaveViolation(ValidateCreate(body).value).Some? ==>
              reply == CreateFailed(SaveViolation(ValidateCreate(body).value).value)
    ensures !reply.Created? ==> store.records == old(store.records) && store.nextId == old(store.nextId)
  {
    var fields := ValidateCreate(body);
    if fields.Err? {
      return CreateRejected(fields.error);
    }
    var saved := store.Save(fields.value, Some(now), now);
    if saved.Err? {
      return CreateFailed(saved.error);
    }
    reply := Created(ToResponse(saved.value));
  }

  /**
   * GET list. A query that fails validation is answered 400. Otherwise the
   * reply is the requested page of the records the query admits, in store
   * order, each shaped for output.
   */
  method HandleList(store: TripStore, query: Payload) returns (reply: ListReply)
    ensures ValidateQuery(query).Err? ==> reply == ListRejected(ValidateQuery(query).error)
    ensures reply.Status() == if ValidateQuery(query).Ok? then 200 else 400
    ensures ValidateQuery(query).Ok? ==> reply == Listed(ShapeAll(ListPage(store.records, ValidateQuery(query).value)))
  {
    var parsed := ValidateQuery(query);
    if parsed.Err? {
      return ListRejected(parsed.error);
    }
    var q := parsed.value;
    var filter := BuildFilter(q);
    KeepSame(store.records, MatchesFilter(filter), AdmitsQuery(q));
    var trips := store.Find(filter, PageOffset(q.page, q.limit), q.limit);
    reply := Listed(ShapeAll(trips));
  }

  /**
   * PUT update. A bad id or body is answered 400 and the store is untouched.
   * An id of 24 characters that are not all hexadecimal digits fails to cast
   * and is answered 500. Otherwise the record whose identifier the id names
   * (in either letter case) gets the supplied fields and the reply carries it
   * as it is afterwards; with no such record the reply is 404 "Trip not
   * found" and nothing changes.
   */
  method HandleUpdate(store: TripStore, params: Payload, body: Payload) returns (reply: UpdateReply)
    requires store.Valid()
    modifies store
    ensures store.Valid() && store.nextId == old(store.nextId)
    ensures |store.records| == |old(store.records)|
    ensures reply.Status() ==
              if ValidateId(params).Err? || ValidateUpdate(body).Err? then 400
              else if ObjectId.Cast(ValidateId(params).value).None? then 500
              else if FirstIndex(old(store.records), ObjectId.Cast(ValidateId(params).value).value).None? then 404
              else 200
    ensures ValidateId(params).Err? ==>
              reply == UpdateRejected(ValidateId(params).error) && store.records == old(store.records)
    ensures ValidateId(params).Ok? && ValidateUpdate(body).Err? ==>
              reply == UpdateRejected(ValidateUpdate(body).error) && store.records == old(store.records)
    ensures ValidateId(params).Ok? && ValidateUpdate(body).Ok? ==>
              var token, p := ValidateId(params).value, ValidateUpdate(body).value;
              && (ObjectId.Cast(token).None? ==>
                    reply == UpdateFailed(CastError(token)) && store.records == old(store.records))
              && (ObjectId.Cast(token).Some? ==>
                    var k := FirstIndex(old(store.records), ObjectId.Cast(token).value);
                    && store.records == UpdateState(old(store.records), ObjectId.Cast(token).value, p)
                    && (k.None? ==> reply == NotFound(NotFoundMessage) && store.records == old(store.records))
                    && (k.Some? ==> reply == Updated(ToResponse(store.records[k.value]))))
  {
    var id := ValidateId(params);
    if id.Err? {
      return UpdateRejected(id.error);
    }
    var patch := ValidateUpdate(body);
    if patch.Err? {
      return UpdateRejected(patch.error);
    }
    var trip := store.FindByIdAndUpdate(id.value, patch.value);
    if trip.Err? {
      return UpdateFailed(trip.error);
    }
    if trip.value.None? {
      return NotFound(NotFoundMessage);
    }
    reply := Updated(ToResponse(trip.value.value));
  }
}

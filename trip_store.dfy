/**
 * The document store behind the trip-plan model: records in insertion order,
 * a counter for fresh identifiers, `save`, a filtered cursor with skip and
 * limit, and find-by-id-and-update. Queries follow the document store's
 * reading of a filter: equality on `destination` and `$gte`/`$lte` bounds on
 * `budget`, all conjoined.
 */
module Store {
  import opened Wrappers
  import opened TripModel
  import ObjectId

  /** Bounds of a `budget` condition; both inclusive. */
  datatype BudgetRange = BudgetRange(gte: Option<real>, lte: Option<real>)

  /** A query filter; an absent key places no condition. */
  datatype Filter = Filter(destination: Option<string>, budget: Option<BudgetRange>)

  /**
   * Whether a record satisfies a filter. A `budget` condition with neither
   * bound is an equality with the empty object, which no number satisfies.
   */
  predicate Matches(f: Filter, r: Record) {
    && (f.destination.Some? ==> r.destination == f.destination.value)
    && (f.budget.Some? ==>
          && (f.budget.value.gte.Some? || f.budget.value.lte.Some?)
          && (f.budget.value.gte.Some? ==> r.budget >= f.budget.value.gte.value)
          && (f.budget.value.lte.Some? ==> r.budget <= f.budget.value.lte.value))
  }

  function MatchesFilter(f: Filter): Record -> bool {
    r => Matches(f, r)
  }

  /** The elements of `s` that `keep` accepts, in their original order. */
  function Keep(s: seq<Record>, keep: Record -> bool): (r: seq<Record>)
    ensures |r| <= |s|
    ensures forall x :: x in r ==> x in s && keep(x)
    ensures forall x :: x in s && keep(x) ==> x in r
  {
    if s == [] then []
    else if keep(s[0]) then [s[0]] + Keep(s[1..], keep)
    else Keep(s[1..], keep)
  }

  /** Filtering distributes over concatenation: the kept elements stay in store order. */
  lemma {:induction false} KeepAppend(a: seq<Record>, b: seq<Record>, keep: Record -> bool)
    ensures Keep(a + b, keep) == Keep(a, keep) + Keep(b, keep)
  {
    if a == [] {
      assert a + b == b;
    } else {
      assert (a + b)[0] == a[0];
      assert (a + b)[1..] == a[1..] + b;
      KeepAppend(a[1..], b, keep);
    }
  }

  /** Two predicates that agree on every record keep the same elements. */
  lemma {:induction false} KeepSame(s: seq<Record>, k1: Record -> bool, k2: Record -> bool)
    requires forall x :: k1(x) == k2(x)
    ensures Keep(s, k1) == Keep(s, k2)
  {
    if s != [] {
      KeepSame(s[1..], k1, k2);
    }
  }

  /**
   * Skip `skip` elements, then take at most `limit`: the contiguous slice of
   * `s` that starts at `skip`.
   */
  function Paginate(s: seq<Record>, skip: nat, limit: nat): (r: seq<Record>)
    ensures |r| == Min(limit, Max(0, |s| - skip))
    ensures forall i :: 0 <= i < |r| ==> r[i] == s[skip + i]
  {
    if skip >= |s| then [] else s[skip..Min(skip + limit, |s|)]
  }

  lemma KeepStep(s: seq<Record>, i: nat, keep: Record -> bool)
    requires i < |s|
    ensures Keep(s[..i + 1], keep) == Keep(s[..i], keep) + (if keep(s[i]) then [s[i]] else [])
  {
    assert s[..i + 1] == s[..i] + [s[i]];
    KeepAppend(s[..i], [s[i]], keep);
    assert [s[i]][1..] == [];
  }

  /** One more scanned record: how the count of matches and the page over the prefix change. */
  lemma PrefixStep(s: seq<Record>, i: nat, keep: Record -> bool, skip: nat, limit: nat)
    requires i < |s|
    ensures var before, after := Keep(s[..i], keep), Keep(s[..i + 1], keep);
            && |after| == |before| + (if keep(s[i]) then 1 else 0)
            && Paginate(after, skip, limit) ==
                 if keep(s[i]) && skip <= |before| < skip + limit then Paginate(before, skip, limit) + [s[i]]
                 else Paginate(before, skip, limit)
  {
    KeepStep(s, i, keep);
    if keep(s[i]) {
      PaginateSnoc(Keep(s[..i], keep), s[i], skip, limit);
    }
  }

  lemma PaginateSnoc(s: seq<Record>, x: Record, skip: nat, limit: nat)
    ensures Paginate(s + [x], skip, limit) ==
            if skip <= |s| < skip + limit then Paginate(s, skip, limit) + [x]
            else Paginate(s, skip, limit)
  {
  }

  /**
   * The page that starts where a page ends continues it: the two together are
   * the slice of twice the length that starts at the first one.
   */
  lemma ConsecutivePages(s: seq<Record>, skip: nat, limit: nat)
    ensures Paginate(s, skip, limit) + Paginate(s, skip + limit, limit) == Paginate(s, skip, 2 * limit)
  {
  }

  /** Identifiers strictly increase in store order, so they are pairwise distinct. */
  predicate IdsIncreasing(rs: seq<Record>) {
    forall i, j :: 0 <= i < j < |rs| ==> rs[i].id < rs[j].id
  }

  lemma {:induction false} KeepIdsIncreasing(s: seq<Record>, keep: Record -> bool)
    requires IdsIncreasing(s)
    ensures IdsIncreasing(Keep(s, keep))
  {
    if s != [] {
      KeepIdsIncreasing(s[1..], keep);
      var rest := Keep(s[1..], keep);
      forall x | x in rest ensures s[0].id < x.id {
        var j :| 0 <= j < |s[1..]| && s[1..][j] == x;
        assert s[j + 1] == x;
      }
    }
  }

  /**
   * With distinct identifiers, a page never shares a record with a later one:
   * page `n` skips `(n - 1) * limit` records, so page `m > n` starts at or
   * after the end of page `n`.
   */
  lemma PagesDisjoint(s: seq<Record>, skipA: nat, skipB: nat, limit: nat)
    requires IdsIncreasing(s) && skipA + limit <= skipB
    ensures forall x :: x in Paginate(s, skipA, limit) ==> x !in Paginate(s, skipB, limit)
  {
  }

  /** A later page starts at or after the end of an earlier one. */
  lemma PageOffsetsOrdered(n: nat, m: nat, limit: nat)
    requires 1 <= n < m
    ensures (n - 1) * limit + limit <= (m - 1) * limit
  {
    var d := m - n;
    assert (m - 1) * limit == ((n - 1) + d) * limit == (n - 1) * limit + d * limit;
    assert d * limit == limit + (d - 1) * limit;
    assert (d - 1) * limit >= 0;
  }

  /** The position of the first record whose identifier is `id`. */
  function FirstIndex(rs: seq<Record>, id: nat): (k: Option<nat>)
    ensures k.Some? ==> k.value < |rs| && rs[k.value].id == id
    ensures k.Some? ==> forall j :: 0 <= j < k.value ==> rs[j].id != id
    ensures k.None? ==> forall j :: 0 <= j < |rs| ==> rs[j].id != id
  {
    if rs == [] then None
    else if rs[0].id == id then Some(0)
    else
      match FirstIndex(rs[1..], id)
      case None => None
      case Some(j) => Some(j + 1)
  }

  /** Lookup by identifier depends on the identifiers alone. */
  lemma {:induction false} FirstIndexSameIds(a: seq<Record>, b: seq<Record>, id: nat)
    requires |a| == |b| && forall i :: 0 <= i < |a| ==> a[i].id == b[i].id
    ensures FirstIndex(a, id) == FirstIndex(b, id)
  {
    if a != [] {
      FirstIndexSameIds(a[1..], b[1..], id);
    }
  }

  /** The store's records after find-by-id-and-update of identifier `id`. */
  function UpdateState(rs: seq<Record>, id: nat, p: Patch): (u: seq<Record>)
    ensures |u| == |rs|
    ensures forall i :: 0 <= i < |rs| ==> u[i].id == rs[i].id && u[i].createdAt == rs[i].createdAt
  {
    match FirstIndex(rs, id)
    case None => rs
    case Some(i) => rs[i := ApplyPatch(rs[i], p)]
  }

  /**
   * With distinct identifiers, an update changes exactly the record whose
   * identifier is `id` (when there is one) and no other; an identifier that
   * names no record leaves the store as it was.
   */
  lemma UpdateChangesOnlyTarget(rs: seq<Record>, id: nat, p: Patch)
    requires IdsIncreasing(rs)
    ensures forall i :: 0 <= i < |rs| ==>
              UpdateState(rs, id, p)[i] == if rs[i].id == id then ApplyPatch(rs[i], p) else rs[i]
    ensures (forall i :: 0 <= i < |rs| ==> rs[i].id != id) ==> UpdateState(rs, id, p) == rs
  {
    match FirstIndex(rs, id)
    case None =>
    case Some(k) =>
      forall i | 0 <= i < |rs| && i != k ensures rs[i].id != id {
        if i < k { assert rs[i].id < rs[k].id; } else { assert rs[k].id < rs[i].id; }
      }
  }

  /** Applying the same partial update twice gives the state of applying it once. */
  lemma UpdateIdempotent(rs: seq<Record>, id: nat, p: Patch)
    ensures UpdateState(UpdateState(rs, id, p), id, p) == UpdateState(rs, id, p)
  {
    FirstIndexSameIds(UpdateState(rs, id, p), rs, id);
    match FirstIndex(rs, id)
    case None =>
    case Some(k) => ApplyPatchIdempotent(rs[k], p);
  }

  /** A find-by-id whose id string does not cast to an identifier. */
  datatype CastError = CastError(value: string)

  class TripStore {
    var records: seq<Record>
    var nextId: nat

    /** Every record keeps the schema's minimums; identifiers increase and stay below the counter. */
    ghost predicate Valid()
      reads this
    {
      && nextId <= ObjectId.IdSpace
      && IdsIncreasing(records)
      && (forall i :: 0 <= i < |records| ==> records[i].id < nextId && MeetsMinimums(records[i]))
    }

    constructor ()
      ensures Valid() && records == [] && nextId == 0
    {
      records := [];
      nextId := 0;
    }

    /**
     * Builds a document from `f` (with `createdAt` defaulting to `now`),
     * validates it against the schema and inserts it with a fresh identifier.
     */
    method Save(f: TripFields, createdAt: Option<Time>, now: Time) returns (r: Result<Record, SaveError>)
      requires Valid()
      modifies this
      ensures Valid()
      ensures SaveViolation(f).Some? ==> r == Err(SaveViolation(f).value)
      ensures r.Ok? <==> Saveable(f) && old(nextId) < ObjectId.IdSpace
      ensures r.Ok? ==> r.value == NewDocument(old(nextId), f, createdAt, now)
      ensures r.Ok? ==> records == old(records) + [r.value] && nextId == old(nextId) + 1
      ensures r.Ok? ==> forall i :: 0 <= i < |old(records)| ==>
                          old(records)[i].id != r.value.id &&
                          ObjectId.Token(old(records)[i].id) != ObjectId.Token(r.value.id)
      ensures r.Err? ==> records == old(records) && nextId == old(nextId)
    {
      var violation := SaveViolation(f);
      if violation.Some? {
        return Err(violation.value);
      }
      if nextId == ObjectId.IdSpace {
        return Err(IdSpaceExhausted);
      }
      var doc := NewDocument(nextId, f, createdAt, now);
      forall i | 0 <= i < |records| ensures ObjectId.Token(records[i].id) != ObjectId.Token(doc.id) {
        ObjectId.TokenInjective(records[i].id, doc.id);
      }
      records := records + [doc];
      nextId := nextId + 1;
      r := Ok(doc);
    }

    /** Scans the records in order for the first one whose identifier is `id`. */
    method IndexOf(id: nat) returns (k: Option<nat>)
      ensures k == FirstIndex(records, id)
    {
      var i := 0;
      while i < |records|
        invariant 0 <= i <= |records|
        invariant forall j :: 0 <= j < i ==> records[j].id != id
      {
        if records[i].id == id {
          FirstIndexIsFirst(records, id, i);
          return Some(i);
        }
        i := i + 1;
      }
      FirstIndexAbsent(records, id);
      k := None;
    }

    /**
     * A cursor over the records matching `f`, in store order, that skips
     * `skip` matches and then yields at most `limit`.
     */
    method Find(f: Filter, skip: nat, limit: nat) returns (page: seq<Record>)
      requires limit >= 1
      ensures page == Paginate(Keep(records, MatchesFilter(f)), skip, limit)
    {
      var rs, keep := records, MatchesFilter(f);
      var i, seen := 0, 0;
      page := [];
      while i < |rs|
        invariant 0 <= i <= |rs|
        invariant seen == |Keep(rs[..i], keep)|
        invariant page == Paginate(Keep(rs[..i], keep), skip, limit)
      {
        PrefixStep(rs, i, keep, skip, limit);
        if keep(rs[i]) {
          if skip <= seen < skip + limit {
            page := page + [rs[i]];
          }
          seen := seen + 1;
        }
        i := i + 1;
      }
      assert rs[..i] == rs;
    }

    /**
     * Casts `token` to an identifier, then sets the supplied fields of the
     * record with that identifier and returns that record as it is
     * afterwards. Returns `None`, and changes nothing, when no record has the
     * identifier, and a cast error, changing nothing, when `token` is not 24
     * hexadecimal digits. Never inserts.
     */
    method FindByIdAndUpdate(token: string, p: Patch) returns (r: Result<Option<Record>, CastError>)
      requires Valid() && PatchRespectsMinimums(p)
      modifies this
      ensures Valid() && nextId == old(nextId)
      ensures ObjectId.Cast(token).None? ==> r == Err(CastError(token)) && records == old(records)
      ensures ObjectId.Cast(token).Some? ==>
                var id := ObjectId.Cast(token).value;
                && r.Ok?
                && records == UpdateState(old(records), id, p)
                && (FirstIndex(old(records), id).None? <==> r.value.None?)
                && (r.value.Some? ==> r.value == Some(records[FirstIndex(old(records), id).value]))
    {
      var id := ObjectId.Cast(token);
      if id.None? {
        return Err(CastError(token));
      }
      var k := IndexOf(id.value);
      if k.None? {
        return Ok(None);
      }
      records := records[k.value := ApplyPatch(records[k.value], p)];
      r := Ok(Some(records[k.value]));
    }
  }

  lemma FirstIndexIsFirst(rs: seq<Record>, id: nat, i: nat)
    requires i < |rs| && rs[i].id == id
    requires forall j :: 0 <= j < i ==> rs[j].id != id
    ensures FirstIndex(rs, id) == Some(i)
  {
  }

  lemma FirstIndexAbsent(rs: seq<Record>, id: nat)
    requires forall j :: 0 <= j < |rs| ==> rs[j].id != id
    ensures FirstIndex(rs, id) == None
  {
  }
}

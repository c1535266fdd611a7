/** The transaction table both flows read and write: rows keyed by the
    gateway reference, each with a store-assigned id. Every call to the
    database may fail; whether it does is an outcome supplied by the caller. */
module Persistence {
  import opened PaymentTypes

  /** A gateway reference, the table's unique lookup key. */
  type Ref = string

  /** What the database does with one query: commits it or throws. */
  datatype DbOutcome = Committed | DbFailed(error: Error)

  /** The data of an update: an absent field is left as it is. */
  datatype Patch = Patch(status: Option<Status>, paystackData: Option<Json>)

  const RecordNotFound := Error("Record to update not found.")
  const DuplicateReference := Error("Unique constraint failed on the fields: (`paystackRef`)")

  function Apply(t: Transaction, p: Patch): (u: Transaction)
    ensures u.id == t.id && u.paystackRef == t.paystackRef
    ensures u == t.(status := u.status, paystackData := u.paystackData)
    ensures u.status == (if p.status.Some? then p.status.value else t.status)
    ensures u.paystackData == (if p.paystackData.Some? then p.paystackData.value else t.paystackData)
  {
    t.(status := if p.status.Some? then p.status.value else t.status,
       paystackData := if p.paystackData.Some? then p.paystackData.value else t.paystackData)
  }

  /** Every row is stored under its own reference and no two rows share an id. */
  predicate WellFormed(records: map<Ref, Transaction>) {
    && (forall r :: r in records ==> records[r].paystackRef == r)
    && (forall r1, r2 :: r1 in records && r2 in records && records[r1].id == records[r2].id ==> r1 == r2)
  }

  predicate HasId(records: map<Ref, Transaction>, id: nat) {
    exists r :: r in records && records[r].id == id
  }

  /** `update({ where: { id }, data })`: every row with that id gets the patch,
      every other row is left alone, and no row is added or removed. */
  function UpdateWhereId(records: map<Ref, Transaction>, id: nat, p: Patch): (u: map<Ref, Transaction>)
    ensures u.Keys == records.Keys
    ensures forall r :: r in records && records[r].id != id ==> u[r] == records[r]
    ensures forall r :: r in records && records[r].id == id ==> u[r] == Apply(records[r], p)
    ensures WellFormed(records) ==> WellFormed(u)
    ensures !HasId(records, id) ==> u == records
  {
    map r | r in records :: if records[r].id == id then Apply(records[r], p) else records[r]
  }

  /** Since ids are unique, an update by the id of the row under `ref`
      writes that row and no other. */
  lemma UpdateWritesOneRow(records: map<Ref, Transaction>, ref: Ref, p: Patch)
    requires WellFormed(records) && ref in records
    ensures UpdateWhereId(records, records[ref].id, p) == records[ref := Apply(records[ref], p)]
    ensures WellFormed(UpdateWhereId(records, records[ref].id, p))
  {
    var u := UpdateWhereId(records, records[ref].id, p);
    forall r | r in records && r != ref
      ensures u[r] == records[r]
    {
      assert records[r].id != records[ref].id;
    }
    assert u == records[ref := Apply(records[ref], p)];
  }

  /** `create({ data })`: the new row gets the next id; a reference already
      in the table violates its unique constraint. */
  function CreateResult(records: map<Ref, Transaction>, nextId: nat, draft: Transaction, db: DbOutcome): (r: Result<Transaction>)
    ensures r.Ok? <==> draft.paystackRef !in records && db.Committed?
    ensures r.Ok? ==> r.value == draft.(id := nextId)
  {
    if draft.paystackRef in records then Err(DuplicateReference)
    else if db.DbFailed? then Err(db.error)
    else Ok(draft.(id := nextId))
  }

  class TransactionStore {
    var records: map<Ref, Transaction>
    var nextId: nat

    ghost predicate Valid()
      reads this
    {
      && WellFormed(records)
      && forall r :: r in records ==> records[r].id < nextId
    }

    constructor ()
      ensures Valid() && records == map[] && nextId == 0
    {
      records := map[];
      nextId := 0;
    }

    /** `findUnique({ where: { paystackRef: ref } })`. */
    method FindByReference(ref: Ref, db: DbOutcome) returns (r: Result<Option<Transaction>>)
      requires Valid()
      ensures db.DbFailed? ==> r == Err(db.error)
      ensures db.Committed? && ref !in records ==> r == Ok(None)
      ensures db.Committed? && ref in records ==> r == Ok(Some(records[ref])) && records[ref].paystackRef == ref
    {
      if db.DbFailed? {
        return Err(db.error);
      }
      if ref in records {
        return Ok(Some(records[ref]));
      }
      return Ok(None);
    }

    /** `update({ where: { id }, data: p })`. */
    method Update(id: nat, p: Patch, db: DbOutcome) returns (r: Result<()>)
      requires Valid()
      modifies this
      ensures Valid() && nextId == old(nextId)
      ensures !HasId(old(records), id) ==> r == Err(RecordNotFound) && records == old(records)
      ensures HasId(old(records), id) && db.DbFailed? ==> r == Err(db.error) && records == old(records)
      ensures HasId(old(records), id) && db.Committed? ==> r == Ok(()) && records == UpdateWhereId(old(records), id, p)
    {
      if !HasId(records, id) {
        return Err(RecordNotFound);
      }
      if db.DbFailed? {
        return Err(db.error);
      }
      ghost var ref :| ref in records && records[ref].id == id;
      UpdateWritesOneRow(records, ref, p);
      records := UpdateWhereId(records, id, p);
      return Ok(());
    }

    /** `create({ data: draft })`; the id of the draft is replaced by a fresh one. */
    method Create(draft: Transaction, db: DbOutcome) returns (r: Result<Transaction>)
      requires Valid()
      modifies this
      ensures Valid()
      ensures r == CreateResult(old(records), old(nextId), draft, db)
      ensures r.Ok? ==> records == old(records)[draft.paystackRef := r.value] && nextId == old(nextId) + 1
      ensures r.Err? ==> records == old(records) && nextId == old(nextId)
    {
      if draft.paystackRef in records {
        return Err(DuplicateReference);
      }
      if db.DbFailed? {
        return Err(db.error);
      }
      var t := draft.(id := nextId);
      records := records[draft.paystackRef := t];
      nextId := nextId + 1;
      return Ok(t);
    }
  }
}

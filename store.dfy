/**
 * A Mongoose collection as the API handlers use it: records keyed by
 * ObjectId, each with the automatic `createdAt`/`updatedAt` timestamps the
 * schemas switch on; listing newest first; create with schema defaults;
 * merge-update and delete by id; and the outbox SendGrid is handed.
 */
module Store {
  import opened Documents

  type Id = string

  /** A stored document with the timestamps Mongoose maintains (database clock ticks). */
  datatype Record = Record(doc: Doc, createdAt: int, updatedAt: int)

  /** One row of a listing: the record together with its id. */
  datatype Row = Row(id: Id, rec: Record)

  /** Result of `findById`: a malformed id makes Mongoose throw a CastError. */
  datatype Lookup = CastError | NotFound | Found(doc: Doc)

  predicate IsHex(c: char)
  {
    '0' <= c <= '9' || 'a' <= c <= 'f' || 'A' <= c <= 'F'
  }

  /** The 24-hex-digit form of an ObjectId, the only id string Mongoose casts. */
  predicate IsObjectId(s: string)
  {
    |s| == 24 && forall i :: 0 <= i < |s| ==> IsHex(s[i])
  }

  /** Rows ordered by `createdAt` descending, as `sort({createdAt: -1})` returns them. */
  ghost predicate NewestFirst(rows: seq<Row>)
  {
    forall i, j :: 0 <= i < j < |rows| ==> rows[i].rec.createdAt >= rows[j].rec.createdAt
  }

  /** How many rows carry this id. */
  function CountId(rows: seq<Row>, id: Id): nat
  {
    if rows == [] then 0 else (if rows[0].id == id then 1 else 0) + CountId(rows[1..], id)
  }

  /** An id counted in the rows is the id of one of them. */
  lemma {:induction false} CountIdPositive(rows: seq<Row>, id: Id)
    requires CountId(rows, id) > 0
    ensures exists i :: 0 <= i < |rows| && rows[i].id == id
  {
    if rows[0].id != id {
      CountIdPositive(rows[1..], id);
      var i :| 0 <= i < |rows[1..]| && rows[1..][i].id == id;
      assert rows[i + 1].id == id;
    }
  }

  /** `rows` lists exactly the stored records, each once, each as stored. */
  ghost predicate IsListing(records: map<Id, Record>, rows: seq<Row>)
  {
    && (forall i :: 0 <= i < |rows| ==> rows[i].id in records && rows[i].rec == records[rows[i].id])
    && (forall id :: id in records ==> CountId(rows, id) == 1)
  }

  /** Place a row among newest-first rows, before the first one that is not newer. */
  function InsertNewest(rows: seq<Row>, row: Row): (r: seq<Row>)
    requires NewestFirst(rows)
    ensures NewestFirst(r)
    ensures |r| == |rows| + 1
    ensures forall x :: x in r <==> x in rows || x == row
    ensures forall id :: CountId(r, id) == CountId(rows, id) + (if row.id == id then 1 else 0)
  {
    if rows == [] || row.rec.createdAt >= rows[0].rec.createdAt then
      assert ([row] + rows)[1..] == rows;
      [row] + rows
    else
      var rest := InsertNewest(rows[1..], row);
      assert forall x :: x in rows[1..] ==> rows[0].rec.createdAt >= x.rec.createdAt;
      assert ([rows[0]] + rest)[1..] == rest;
      [rows[0]] + rest
  }

  /** A record after a merge-update at database time `clock`; `createdAt` is kept. */
  function Applied(rec: Record, update: Doc, clock: int): (r: Record)
    ensures r.doc == Merge(rec.doc, update)
    ensures r.createdAt == rec.createdAt && r.updatedAt == clock
  {
    Record(Merge(rec.doc, update), rec.createdAt, clock)
  }

  /** One Mongoose model: the documents of one collection. */
  class Collection {
    var records: map<Id, Record>
    /** The schema's field defaults. */
    const defaults: Doc

    constructor (defaults: Doc)
      ensures records == map[] && this.defaults == defaults
    {
      records := map[];
      this.defaults := defaults;
    }

    /** `findById(id)`. */
    function FindById(id: Id): (r: Lookup)
      reads this
      ensures r.CastError? <==> !IsObjectId(id)
      ensures r.Found? <==> IsObjectId(id) && id in records
      ensures r.Found? ==> r.doc == records[id].doc
    {
      if !IsObjectId(id) then CastError
      else if id in records then Found(records[id].doc)
      else NotFound
    }

    /** `find({}).sort({createdAt: -1})`: every record once, newest first. */
    method FindNewestFirst() returns (rows: seq<Row>)
      ensures NewestFirst(rows)
      ensures IsListing(records, rows)
    {
      rows := [];
      var pending := records.Keys;
      while pending != {}
        invariant pending <= records.Keys
        invariant NewestFirst(rows)
        invariant forall x :: x in rows ==> x.id in records.Keys - pending && x.rec == records[x.id]
        invariant forall id :: id in records ==> CountId(rows, id) == (if id in pending then 0 else 1)
        decreases pending
      {
        var id :| id in pending;
        var row := Row(id, records[id]);
        rows := InsertNewest(rows, row);
        pending := pending - {id};
      }
    }

    /** `create(doc)` under a fresh id, at database time `clock`. */
    method Create(id: Id, doc: Doc, clock: int)
      requires IsObjectId(id) && id !in records
      modifies this
      ensures records == old(records)[id := Record(FillDefaults(defaults, doc), clock, clock)]
    {
      records := records[id := Record(FillDefaults(defaults, doc), clock, clock)];
    }

    /**
     * `findByIdAndUpdate(id, update)`: merges the update into the record and
     * bumps `updatedAt`; a missing id changes nothing; a malformed id throws.
     */
    method FindByIdAndUpdate(id: Id, update: Doc, clock: int) returns (thrown: bool)
      modifies this
      ensures thrown <==> !IsObjectId(id)
      ensures thrown || id !in old(records) ==> records == old(records)
      ensures !thrown && id in old(records) ==>
        records == old(records)[id := Applied(old(records)[id], update, clock)]
    {
      if !IsObjectId(id) {
        return true;
      }
      thrown := false;
      if id in records {
        records := records[id := Applied(records[id], update, clock)];
      }
    }

    /** `findByIdAndDelete(id)`: a missing id changes nothing; a malformed id throws. */
    method FindByIdAndDelete(id: Id) returns (thrown: bool)
      modifies this
      ensures thrown <==> !IsObjectId(id)
      ensures thrown ==> records == old(records)
      ensures !thrown ==> records == old(records) - {id}
    {
      if !IsObjectId(id) {
        return true;
      }
      thrown := false;
      records := records - {id};
    }
  }

  /** One `sgMail.send`/`sendMultiple` call: its recipients and subject. */
  datatype Mail = Mail(to: seq<string>, subject: string)

  /** The messages handed to SendGrid, in order; delivery is not modelled. */
  class Mailer {
    var outbox: seq<Mail>

    constructor ()
      ensures outbox == []
    {
      outbox := [];
    }

    method Send(m: Mail)
      modifies this
      ensures outbox == old(outbox) + [m]
    {
      outbox := outbox + [m];
    }
  }
}

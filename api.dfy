/**
 * The request, rejection and promotion API routes. Each handler takes the
 * request body's `id` and `data`, the server's "now" string (the
 * `toLocaleString` stamp), the database clock and, for creation, the fresh
 * ObjectId the driver assigns.
 */
module Api {
  import opened Documents
  import opened Store

  datatype HttpMethod = GET | POST | PATCH | DELETE | Other(name: string)

  datatype Body = Message(text: string) | Listing(rows: seq<Row>)

  datatype Reply = Reply(status: int, body: Body)

  function Success(): Reply
  {
    Reply(200, Message("request success."))
  }

  function Failure(): Reply
  {
    Reply(400, Message("request failed."))
  }

  /**
   * `{...data, created: now, updated: now}`: both stamps are written after the
   * spread, so client-sent `created`/`updated` never survive.
   */
  function Stamped(data: Doc, now: string): (r: Doc)
    ensures r.Keys == data.Keys + {"created", "updated"}
    ensures r["created"] == Str(now) && r["updated"] == Str(now)
    ensures forall k :: k in data && k != "created" && k != "updated" ==> r[k] == data[k]
  {
    data + map["created" := Str(now), "updated" := Str(now)]
  }

  /** `{...data, updated: now}`: the client's fields with the server's `updated`. */
  function Touched(data: Doc, now: string): (r: Doc)
    ensures r.Keys == data.Keys + {"updated"}
    ensures r["updated"] == Str(now)
    ensures forall k :: k in data && k != "updated" ==> r[k] == data[k]
  {
    data + map["updated" := Str(now)]
  }

  /**
   * The PATCH /requests update `{...data, cancelled: {date: now}, updated: now}`:
   * the cancellation date is stamped whatever `data` says.
   */
  function CancelUpdate(data: Doc, now: string): (r: Doc)
    ensures r.Keys == data.Keys + {"cancelled", "updated"}
    ensures r["cancelled"] == Obj(map["date" := Str(now)]) && r["updated"] == Str(now)
    ensures forall k :: k in data && k != "cancelled" && k != "updated" ==> r[k] == data[k]
  {
    data + map["cancelled" := Obj(map["date" := Str(now)]), "updated" := Str(now)]
  }

  /**
   * The rejection update `{status: 'rejected', ...data, updated: now}`: the
   * status is 'rejected' unless `data` carries its own, which then wins.
   */
  function RejectUpdate(data: Doc, now: string): (r: Doc)
    ensures r.Keys == data.Keys + {"status", "updated"}
    ensures "status" !in data ==> r["status"] == Str("rejected")
    ensures forall k :: k in data && k != "updated" ==> r[k] == data[k]
    ensures r["updated"] == Str(now)
  {
    map["status" := Str("rejected")] + data + map["updated" := Str(now)]
  }

  /** /api/requests. */
  method RequestsHandler(requests: Collection, m: HttpMethod, id: Id, data: Doc,
                         freshId: Id, now: string, clock: int) returns (reply: Reply)
    requires IsObjectId(freshId) && freshId !in requests.records
    modifies requests
    ensures m.GET? ==>
      && reply.status == 200 && reply.body.Listing?
      && NewestFirst(reply.body.rows) && IsListing(requests.records, reply.body.rows)
      && requests.records == old(requests.records)
    ensures m.POST? ==>
      && reply == Success()
      && requests.records == old(requests.records)[freshId :=
           Record(FillDefaults(requests.defaults, Stamped(data, now)), clock, clock)]
    ensures m.PATCH? ==>
      && (reply == Success() <==> IsObjectId(id))
      && (!IsObjectId(id) ==> reply == Failure())
      && (IsObjectId(id) && id in old(requests.records) ==>
           requests.records == old(requests.records)[id := Applied(old(requests.records)[id], CancelUpdate(data, now), clock)])
      && (!IsObjectId(id) || id !in old(requests.records) ==> requests.records == old(requests.records))
    ensures m.DELETE? ==> reply == Success() && requests.records == old(requests.records)
    ensures m.Other? ==> reply == Failure() && requests.records == old(requests.records)
  {
    match m {
      case GET =>
        var rows := requests.FindNewestFirst();
        reply := Reply(200, Listing(rows));
      case POST =>
        requests.Create(freshId, Stamped(data, now), clock);
        reply := Success();
      case PATCH =>
        var thrown := requests.FindByIdAndUpdate(id, CancelUpdate(data, now), clock);
        reply := if thrown then Failure() else Success();
      case DELETE =>
        reply := Success();
      case Other(_) =>
        reply := Failure();
    }
  }

  /**
   * /api/requests/employee/reject: look up the request, then its owner, then
   * apply the rejection and mail the owner. A missing request, or an owner id
   * that is not an ObjectId, fails before anything changes; a well-formed
   * owner id with no user fails after the update, without mail.
   */
  method Reject(requests: Collection, users: Collection, mailer: Mailer,
                id: Id, data: Doc, now: string, clock: int) returns (reply: Reply)
    requires requests != users
    modifies requests, mailer
    ensures !old(requests.FindById(id)).Found? ==>
      reply == Failure() && requests.records == old(requests.records) && mailer.outbox == old(mailer.outbox)
    ensures old(requests.FindById(id)).Found? ==>
      var owner := users.FindById(NestedStr(old(requests.records)[id].doc, "user", "id"));
      var rejected := old(requests.records)[id := Applied(old(requests.records)[id], RejectUpdate(data, now), clock)];
      && (owner.CastError? ==>
           reply == Failure() && requests.records == old(requests.records) && mailer.outbox == old(mailer.outbox))
      && (owner.NotFound? ==>
           reply == Failure() && requests.records == rejected && mailer.outbox == old(mailer.outbox))
      && (owner.Found? ==>
           && reply == Success() && requests.records == rejected
           && mailer.outbox == old(mailer.outbox) + [Mail([StrField(owner.doc, "email")], "Your Request is Rejected!")])
  {
    var request := requests.FindById(id);
    if !request.Found? {
      return Failure();
    }
    var owner := users.FindById(NestedStr(request.doc, "user", "id"));
    if owner.CastError? {
      return Failure();
    }
    var thrown := requests.FindByIdAndUpdate(id, RejectUpdate(data, now), clock);
    if owner.NotFound? {
      return Failure();
    }
    mailer.Send(Mail([StrField(owner.doc, "email")], "Your Request is Rejected!"));
    reply := Success();
  }

  /**
   * /api/users/promote: merge `data` into the user, stamp `updated`, re-read
   * the user and mail the address it now has.
   */
  method Promote(users: Collection, mailer: Mailer, id: Id, data: Doc, now: string, clock: int)
    returns (reply: Reply)
    modifies users, mailer
    ensures !(IsObjectId(id) && id in old(users.records)) ==>
      reply == Failure() && users.records == old(users.records) && mailer.outbox == old(mailer.outbox)
    ensures IsObjectId(id) && id in old(users.records) ==>
      && reply == Success()
      && users.records == old(users.records)[id := Applied(old(users.records)[id], Touched(data, now), clock)]
      && mailer.outbox == old(mailer.outbox) + [Mail([StrField(users.records[id].doc, "email")], "You have been promoted as Employee!")]
  {
    var thrown := users.FindByIdAndUpdate(id, Touched(data, now), clock);
    if thrown {
      return Failure();
    }
    var user := users.FindById(id);
    if !user.Found? {
      return Failure();
    }
    mailer.Send(Mail([StrField(user.doc, "email")], "You have been promoted as Employee!"));
    reply := Success();
  }

  /** A rejection stamps `updated` but keeps `created` and the creation time. */
  lemma RejectKeepsCreation(rec: Record, data: Doc, now: string, clock: int)
    requires "created" !in data
    ensures var r := Applied(rec, RejectUpdate(data, now), clock);
      && r.createdAt == rec.createdAt && Field(r.doc, "created") == Field(rec.doc, "created")
      && StrField(r.doc, "updated") == now
  {
  }

  /** The rejection applies whatever the request's current status, unless `data` names one. */
  lemma RejectFromAnyStatus(rec: Record, data: Doc, now: string, clock: int)
    requires "status" !in data
    ensures StatusOf(Applied(rec, RejectUpdate(data, now), clock).doc) == "rejected"
  {
  }

  /** A `status` inside the rejection data overrides 'rejected'. */
  lemma RejectDataStatusWins(rec: Record, now: string, clock: int, s: string)
    ensures StatusOf(Applied(rec, RejectUpdate(map["status" := Str(s)], now), clock).doc) == s
  {
  }

  /** Every PATCH /requests stamps a cancellation date, even when `data` does not cancel. */
  lemma PatchAlwaysStampsCancellation(rec: Record, data: Doc, now: string, clock: int)
    ensures NestedStr(Applied(rec, CancelUpdate(data, now), clock).doc, "cancelled", "date") == now
  {
  }

  /** The promotion mail goes to the email as updated by the same call. */
  lemma PromoteMailsUpdatedEmail(doc: Doc, data: Doc, now: string)
    ensures StrField(Merge(doc, Touched(data, now)), "email")
      == (if "email" in data then StrField(data, "email") else StrField(doc, "email"))
  {
  }
}

/**
 * The memo routes (meetings, announcements, holidays) and the designation
 * route. Memo routes mail every user, or for a meeting the users of one
 * department; the recipient list is built by pushing `user.email` for each
 * user of the newest-first user listing, and mail is sent only when that
 * list is non-empty.
 */
module Memos {
  import opened Documents
  import opened Store
  import opened Api

  /** Who a memo is addressed to. */
  datatype Audience = Everyone | Department(department: Option<Value>)

  /** A meeting for department 'all' goes to everyone, any other to that department. */
  function MeetingAudience(data: Doc): (a: Audience)
    ensures a.Everyone? <==> Field(data, "department") == Some(Str("all"))
    ensures a.Department? ==> a.department == Field(data, "department")
  {
    if StrictEquals(Field(data, "department"), Some(Str("all"))) then Everyone
    else Department(Field(data, "department"))
  }

  /** `user.department === data.department` for a department audience. */
  predicate Addressed(user: Doc, audience: Audience)
  {
    match audience
    case Everyone => true
    case Department(d) => StrictEquals(Field(user, "department"), d)
  }

  function EmailOf(user: Doc): string
  {
    StrField(user, "email")
  }

  /** The emails of the addressed users, in listing order. */
  function Recipients(rows: seq<Row>, audience: Audience): (r: seq<string>)
    ensures |r| <= |rows|
    ensures audience.Everyone? ==> |r| == |rows|
  {
    if rows == [] then []
    else
      (if Addressed(rows[0].rec.doc, audience) then [EmailOf(rows[0].rec.doc)] else [])
      + Recipients(rows[1..], audience)
  }

  /** `e` is the email of a stored user the memo is addressed to. */
  ghost predicate IsRecipient(records: map<Id, Record>, audience: Audience, e: string)
  {
    exists id :: id in records && Addressed(records[id].doc, audience) && EmailOf(records[id].doc) == e
  }

  /** Some stored user is addressed. */
  ghost predicate AnyAddressed(records: map<Id, Record>, audience: Audience)
  {
    exists id :: id in records && Addressed(records[id].doc, audience)
  }

  /** An email is in the list exactly when some listed addressed user has it. */
  lemma {:induction false} RecipientsMembers(rows: seq<Row>, audience: Audience, e: string)
    ensures e in Recipients(rows, audience) <==>
      exists i :: 0 <= i < |rows| && Addressed(rows[i].rec.doc, audience) && EmailOf(rows[i].rec.doc) == e
  {
    if rows != [] {
      RecipientsMembers(rows[1..], audience, e);
      if e in Recipients(rows[1..], audience) {
        var i :| 0 <= i < |rows[1..]| && Addressed(rows[1..][i].rec.doc, audience) && EmailOf(rows[1..][i].rec.doc) == e;
        assert rows[i + 1] == rows[1..][i];
      }
      if exists i :: 0 <= i < |rows| && Addressed(rows[i].rec.doc, audience) && EmailOf(rows[i].rec.doc) == e {
        var i :| 0 <= i < |rows| && Addressed(rows[i].rec.doc, audience) && EmailOf(rows[i].rec.doc) == e;
        if i > 0 {
          assert rows[1..][i - 1] == rows[i];
        }
      }
    }
  }

  /** The list is empty exactly when no listed user is addressed. */
  lemma {:induction false} RecipientsEmpty(rows: seq<Row>, audience: Audience)
    ensures |Recipients(rows, audience)| == 0 <==>
      forall i :: 0 <= i < |rows| ==> !Addressed(rows[i].rec.doc, audience)
  {
    if rows != [] {
      RecipientsEmpty(rows[1..], audience);
      if forall i :: 0 <= i < |rows[1..]| ==> !Addressed(rows[1..][i].rec.doc, audience) {
        assert forall i :: 1 <= i < |rows| ==> rows[i] == rows[1..][i - 1];
      } else {
        var i :| 0 <= i < |rows[1..]| && Addressed(rows[1..][i].rec.doc, audience);
        assert rows[i + 1] == rows[1..][i];
      }
    }
  }

  /** Over a full listing, the list names exactly the addressed stored users' emails. */
  lemma ListingRecipients(records: map<Id, Record>, rows: seq<Row>, audience: Audience)
    requires IsListing(records, rows)
    ensures forall e :: e in Recipients(rows, audience) <==> IsRecipient(records, audience, e)
    ensures |Recipients(rows, audience)| == 0 <==> !AnyAddressed(records, audience)
  {
    forall e
      ensures e in Recipients(rows, audience) <==> IsRecipient(records, audience, e)
    {
      RecipientsMembers(rows, audience, e);
      if IsRecipient(records, audience, e) {
        var id :| id in records && Addressed(records[id].doc, audience) && EmailOf(records[id].doc) == e;
        CountIdPositive(rows, id);
      }
    }
    RecipientsEmpty(rows, audience);
    if AnyAddressed(records, audience) {
      var id :| id in records && Addressed(records[id].doc, audience);
      CountIdPositive(rows, id);
    }
  }

  /** The all-users push loop: `users.map(user => email.push(user.email))`. */
  method CollectEmails(users: seq<Row>) returns (emails: seq<string>)
    ensures emails == Recipients(users, Everyone)
  {
    emails := [];
    var i := 0;
    while i < |users|
      invariant 0 <= i <= |users|
      invariant emails + Recipients(users[i..], Everyone) == Recipients(users, Everyone)
    {
      assert users[i..][1..] == users[i + 1..];
      emails := emails + [EmailOf(users[i].rec.doc)];
      i := i + 1;
    }
  }

  /** The department push loop: `users.filter(same department).map(user => email.push(user.email))`. */
  method CollectDepartmentEmails(users: seq<Row>, department: Option<Value>) returns (emails: seq<string>)
    ensures emails == Recipients(users, Department(department))
  {
    emails := [];
    var i := 0;
    while i < |users|
      invariant 0 <= i <= |users|
      invariant emails + Recipients(users[i..], Department(department)) == Recipients(users, Department(department))
    {
      assert users[i..][1..] == users[i + 1..];
      if StrictEquals(Field(users[i].rec.doc, "department"), department) {
        emails := emails + [EmailOf(users[i].rec.doc)];
      }
      i := i + 1;
    }
  }

  /**
   * Read the users newest first, build the recipient list and hand SendGrid
   * one message when the list is non-empty.
   */
  method Notify(users: Collection, mailer: Mailer, audience: Audience, subject: string)
    modifies mailer
    ensures !AnyAddressed(users.records, audience) ==> mailer.outbox == old(mailer.outbox)
    ensures AnyAddressed(users.records, audience) ==>
      && |mailer.outbox| == |old(mailer.outbox)| + 1
      && mailer.outbox[..|old(mailer.outbox)|] == old(mailer.outbox)
      && mailer.outbox[|old(mailer.outbox)|].subject == subject
      && (forall e :: e in mailer.outbox[|old(mailer.outbox)|].to <==> IsRecipient(users.records, audience, e))
      && exists rows :: IsListing(users.records, rows) && NewestFirst(rows)
           && mailer.outbox[|old(mailer.outbox)|].to == Recipients(rows, audience)
  {
    var rows := users.FindNewestFirst();
    var emails;
    match audience {
      case Everyone => emails := CollectEmails(rows);
      case Department(d) => emails := CollectDepartmentEmails(rows, d);
    }
    ListingRecipients(users.records, rows, audience);
    if |emails| != 0 {
      mailer.Send(Mail(emails, subject));
      assert mailer.outbox[..|old(mailer.outbox)|] == old(mailer.outbox);
    }
  }

  /**
   * One memo route: GET lists newest first; POST creates with server stamps
   * and notifies; PATCH merges with both stamps reset and notifies; DELETE
   * removes by id; anything else fails.
   */
  method MemoHandler(memos: Collection, users: Collection, mailer: Mailer,
                     audience: Audience, created: string, edited: string,
                     m: HttpMethod, id: Id, data: Doc, freshId: Id, now: string, clock: int)
    returns (reply: Reply)
    requires memos != users
    requires IsObjectId(freshId) && freshId !in memos.records
    modifies memos, mailer
    ensures m.GET? ==>
      && reply.status == 200 && reply.body.Listing?
      && NewestFirst(reply.body.rows) && IsListing(memos.records, reply.body.rows)
      && memos.records == old(memos.records) && mailer.outbox == old(mailer.outbox)
    ensures m.POST? ==>
      && reply == Success()
      && memos.records == old(memos.records)[freshId :=
           Record(FillDefaults(memos.defaults, Stamped(data, now)), clock, clock)]
    ensures m.PATCH? ==>
      && (reply == Success() <==> IsObjectId(id))
      && (!IsObjectId(id) ==> reply == Failure())
      && (IsObjectId(id) && id in old(memos.records) ==>
           memos.records == old(memos.records)[id := Applied(old(memos.records)[id], Stamped(data, now), clock)])
      && (!IsObjectId(id) || id !in old(memos.records) ==> memos.records == old(memos.records))
    ensures (m.POST? || (m.PATCH? && IsObjectId(id))) ==>
      var subject := if m.POST? then created else edited;
      && (!AnyAddressed(users.records, audience) ==> mailer.outbox == old(mailer.outbox))
      && (AnyAddressed(users.records, audience) ==>
           && |mailer.outbox| == |old(mailer.outbox)| + 1
           && mailer.outbox[..|old(mailer.outbox)|] == old(mailer.outbox)
           && mailer.outbox[|old(mailer.outbox)|].subject == subject
           && forall e :: e in mailer.outbox[|old(mailer.outbox)|].to <==> IsRecipient(users.records, audience, e))
    ensures m.PATCH? && !IsObjectId(id) ==> mailer.outbox == old(mailer.outbox)
    ensures m.DELETE? ==>
      && (reply == Success() <==> IsObjectId(id))
      && (!IsObjectId(id) ==> reply == Failure() && memos.records == old(memos.records))
      && (IsObjectId(id) ==> memos.records == old(memos.records) - {id})
      && mailer.outbox == old(mailer.outbox)
    ensures m.Other? ==>
      reply == Failure() && memos.records == old(memos.records) && mailer.outbox == old(mailer.outbox)
  {
    match m {
      case GET =>
        var rows := memos.FindNewestFirst();
        reply := Reply(200, Listing(rows));
      case POST =>
        memos.Create(freshId, Stamped(data, now), clock);
        Notify(users, mailer, audience, created);
        reply := Success();
      case PATCH =>
        var thrown := memos.FindByIdAndUpdate(id, Stamped(data, now), clock);
        if thrown {
          return Failure();
        }
        Notify(users, mailer, audience, edited);
        reply := Success();
      case DELETE =>
        var thrown := memos.FindByIdAndDelete(id);
        reply := if thrown then Failure() else Success();
      case Other(_) =>
        reply := Failure();
    }
  }

  /** /api/meetings: the audience is chosen by `data.department`. */
  method MeetingsHandler(meetings: Collection, users: Collection, mailer: Mailer,
      m: HttpMethod, id: Id, data: Doc, freshId: Id, now: string, clock: int)
    returns (reply: Reply)
    requires meetings != users
    requires IsObjectId(freshId) && freshId !in meetings.records
    modifies meetings, mailer
    ensures m.GET? ==>
      && reply.status == 200 && reply.body.Listing?
      && NewestFirst(reply.body.rows) && IsListing(meetings.records, reply.body.rows)
      && meetings.records == old(meetings.records) && mailer.outbox == old(mailer.outbox)
    ensures m.POST? ==>
      && reply == Success()
      && meetings.records == old(meetings.records)[freshId :=
           Record(FillDefaults(meetings.defaults, Stamped(data, now)), clock, clock)]
    ensures m.PATCH? ==>
      && (reply == Success() <==> IsObjectId(id))
      && (!IsObjectId(id) ==> reply == Failure())
      && (IsObjectId(id) && id in old(meetings.records) ==>
           meetings.records == old(meetings.records)[id := Applied(old(meetings.records)[id], Stamped(data, now), clock)])
      && (!IsObjectId(id) || id !in old(meetings.records) ==> meetings.records == old(meetings.records))
    ensures (m.POST? || (m.PATCH? && IsObjectId(id))) ==>
      var subject := if m.POST? then "New Meetings" else "New Updated Meetings";
      && (!(AnyAddressed(users.records, MeetingAudience(data))) ==> mailer.outbox == old(mailer.outbox))
      && (AnyAddressed(users.records, MeetingAudience(data)) ==>
           && |mailer.outbox| == |old(mailer.outbox)| + 1
           && mailer.outbox[..|old(mailer.outbox)|] == old(mailer.outbox)
           && mailer.outbox[|old(mailer.outbox)|].subject == subject
           && forall e :: e in mailer.outbox[|old(mailer.outbox)|].to <==> IsRecipient(users.records, MeetingAudience(data), e))
    ensures m.PATCH? && !IsObjectId(id) ==> mailer.outbox == old(mailer.outbox)
    ensures m.DELETE? ==>
      && (reply == Success() <==> IsObjectId(id))
      && (!IsObjectId(id) ==> reply == Failure() && meetings.records == old(meetings.records))
      && (IsObjectId(id) ==> meetings.records == old(meetings.records) - {id})
      && mailer.outbox == old(mailer.outbox)
    ensures m.Other? ==>
      reply == Failure() && meetings.records == old(meetings.records) && mailer.outbox == old(mailer.outbox)
  {
    reply := MemoHandler(meetings, users, mailer, MeetingAudience(data), "New Meetings", "New Updated Meetings",
                         m, id, data, freshId, now, clock);
  }

  /** /api/announcements: every user is mailed. */
  method AnnouncementsHandler(announcements: Collection, users: Collection, mailer: Mailer,
      m: HttpMethod, id: Id, data: Doc, freshId: Id, now: string, clock: int)
    returns (reply: Reply)
    requires announcements != users
    requires IsObjectId(freshId) && freshId !in announcements.records
    modifies announcements, mailer
    ensures m.GET? ==>
      && reply.status == 200 && reply.body.Listing?
      && NewestFirst(reply.body.rows) && IsListing(announcements.records, reply.body.rows)
      && announcements.records == old(announcements.records) && mailer.outbox == old(mailer.outbox)
    ensures m.POST? ==>
      && reply == Success()
      && announcements.records == old(announcements.records)[freshId :=
           Record(FillDefaults(announcements.defaults, Stamped(data, now)), clock, clock)]
    ensures m.PATCH? ==>
      && (reply == Success() <==> IsObjectId(id))
      && (!IsObjectId(id) ==> reply == Failure())
      && (IsObjectId(id) && id in old(announcements.records) ==>
           announcements.records == old(announcements.records)[id := Applied(old(announcements.records)[id], Stamped(data, now), clock)])
      && (!IsObjectId(id) || id !in old(announcements.records) ==> announcements.records == old(announcements.records))
    ensures (m.POST? || (m.PATCH? && IsObjectId(id))) ==>
      var subject := if m.POST? then "New Announcement" else "New Updated Announcement";
      && (!(users.records != map[]) ==> mailer.outbox == old(mailer.outbox))
      && (users.records != map[] ==>
           && |mailer.outbox| == |old(mailer.outbox)| + 1
           && mailer.outbox[..|old(mailer.outbox)|] == old(mailer.outbox)
           && mailer.outbox[|old(mailer.outbox)|].subject == subject
           && forall e :: e in mailer.outbox[|old(mailer.outbox)|].to <==> IsRecipient(users.records, Everyone, e))
    ensures m.PATCH? && !IsObjectId(id) ==> mailer.outbox == old(mailer.outbox)
    ensures m.DELETE? ==>
      && (reply == Success() <==> IsObjectId(id))
      && (!IsObjectId(id) ==> reply == Failure() && announcements.records == old(announcements.records))
      && (IsObjectId(id) ==> announcements.records == old(announcements.records) - {id})
      && mailer.outbox == old(mailer.outbox)
    ensures m.Other? ==>
      reply == Failure() && announcements.records == old(announcements.records) && mailer.outbox == old(mailer.outbox)
  {
    EveryoneAddressed(users.records);
    reply := MemoHandler(announcements, users, mailer, Everyone, "New Announcement", "New Updated Announcement",
                         m, id, data, freshId, now, clock);
  }

  /** /api/holidays: every user is mailed. */
  method HolidaysHandler(holidays: Collection, users: Collection, mailer: Mailer,
      m: HttpMethod, id: Id, data: Doc, freshId: Id, now: string, clock: int)
    returns (reply: Reply)
    requires holidays != users
    requires IsObjectId(freshId) && freshId !in holidays.records
    modifies holidays, mailer
    ensures m.GET? ==>
      && reply.status == 200 && reply.body.Listing?
      && NewestFirst(reply.body.rows) && IsListing(holidays.records, reply.body.rows)
      && holidays.records == old(holidays.records) && mailer.outbox == old(mailer.outbox)
    ensures m.POST? ==>
      && reply == Success()
      && holidays.records == old(holidays.records)[freshId :=
           Record(FillDefaults(holidays.defaults, Stamped(data, now)), clock, clock)]
    ensures m.PATCH? ==>
      && (reply == Success() <==> IsObjectId(id))
      && (!IsObjectId(id) ==> reply == Failure())
      && (IsObjectId(id) && id in old(holidays.records) ==>
           holidays.records == old(holidays.records)[id := Applied(old(holidays.records)[id], Stamped(data, now), clock)])
      && (!IsObjectId(id) || id !in old(holidays.records) ==> holidays.records == old(holidays.records))
    ensures (m.POST? || (m.PATCH? && IsObjectId(id))) ==>
      var subject := if m.POST? then "New Holiday" else "New Updated Holiday";
      && (!(users.records != map[]) ==> mailer.outbox == old(mailer.outbox))
      && (users.records != map[] ==>
           && |mailer.outbox| == |old(mailer.outbox)| + 1
           && mailer.outbox[..|old(mailer.outbox)|] == old(mailer.outbox)
           && mailer.outbox[|old(mailer.outbox)|].subject == subject
           && forall e :: e in mailer.outbox[|old(mailer.outbox)|].to <==> IsRecipient(users.records, Everyone, e))
    ensures m.PATCH? && !IsObjectId(id) ==> mailer.outbox == old(mailer.outbox)
    ensures m.DELETE? ==>
      && (reply == Success() <==> IsObjectId(id))
      && (!IsObjectId(id) ==> reply == Failure() && holidays.records == old(holidays.records))
      && (IsObjectId(id) ==> holidays.records == old(holidays.records) - {id})
      && mailer.outbox == old(mailer.outbox)
    ensures m.Other? ==>
      reply == Failure() && holidays.records == old(holidays.records) && mailer.outbox == old(mailer.outbox)
  {
    EveryoneAddressed(users.records);
    reply := MemoHandler(holidays, users, mailer, Everyone, "New Holiday", "New Updated Holiday",
                         m, id, data, freshId, now, clock);
  }

  /** Everyone is addressed exactly when there is a user. */
  lemma EveryoneAddressed(records: map<Id, Record>)
    ensures AnyAddressed(records, Everyone) <==> records != map[]
  {
    if records != map[] {
      var id :| id in records;
      assert Addressed(records[id].doc, Everyone);
    }
  }

  /** /api/designations: the same create, merge and delete, without mail. */
  method DesignationsHandler(designations: Collection, m: HttpMethod, id: Id, data: Doc,
                             freshId: Id, now: string, clock: int) returns (reply: Reply)
    requires IsObjectId(freshId) && freshId !in designations.records
    modifies designations
    ensures m.GET? ==>
      && reply.status == 200 && reply.body.Listing?
      && NewestFirst(reply.body.rows) && IsListing(designations.records, reply.body.rows)
      && designations.records == old(designations.records)
    ensures m.POST? ==>
      && reply == Success()
      && designations.records == old(designations.records)[freshId :=
           Record(FillDefaults(designations.defaults, Stamped(data, now)), clock, clock)]
    ensures m.PATCH? ==>
      && (reply == Success() <==> IsObjectId(id))
      && (!IsObjectId(id) ==> reply == Failure())
      && (IsObjectId(id) && id in old(designations.records) ==>
           designations.records == old(designations.records)[id := Applied(old(designations.records)[id], Stamped(data, now), clock)])
      && (!IsObjectId(id) || id !in old(designations.records) ==> designations.records == old(designations.records))
    ensures m.DELETE? ==>
      && (reply == Success() <==> IsObjectId(id))
      && (!IsObjectId(id) ==> reply == Failure() && designations.records == old(designations.records))
      && (IsObjectId(id) ==> designations.records == old(designations.records) - {id})
    ensures m.Other? ==> reply == Failure() && designations.records == old(designations.records)
  {
    match m {
      case GET =>
        var rows := designations.FindNewestFirst();
        reply := Reply(200, Listing(rows));
      case POST =>
        designations.Create(freshId, Stamped(data, now), clock);
        reply := Success();
      case PATCH =>
        var thrown := designations.FindByIdAndUpdate(id, Stamped(data, now), clock);
        reply := if thrown then Failure() else Success();
      case DELETE =>
        var thrown := designations.FindByIdAndDelete(id);
        reply := if thrown then Failure() else Success();
      case Other(_) =>
        reply := Failure();
    }
  }

  /** Editing a memo or designation resets `created`, unlike every other PATCH. */
  lemma EditResetsCreated(rec: Record, data: Doc, now: string, clock: int)
    ensures StrField(Applied(rec, Stamped(data, now), clock).doc, "created") == now
    ensures Applied(rec, Stamped(data, now), clock).createdAt == rec.createdAt
  {
  }
}

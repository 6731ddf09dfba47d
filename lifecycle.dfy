/**
 * The approval lifecycle of requests, leaves and reports. Requests and
 * leaves start 'waiting'; reports start 'unread'. The pages build the
 * payloads below and offer each action only in certain statuses; the server
 * routes in the model (PATCH /requests, the reject route) check no status at
 * all, so the lifecycle is kept by the pages alone.
 */
module Lifecycle {
  import opened Documents
  import opened Store
  import opened Api
  import opened Client
  import Schemas

  datatype Kind = RequestKind | LeaveKind | ReportKind

  datatype Action = Approve | Reject | Cancel | MarkRead

  /** The status a record of this kind is created with. */
  function Initial(kind: Kind): string
  {
    if kind == ReportKind then "unread" else "waiting"
  }

  /**
   * Which pages render the control for an action: approve and reject on a
   * waiting request (admin view), cancel on a waiting request (owner view),
   * on a waiting leave (the leave tab of an employee's profile) and on an
   * unread report (owner view), and the mark-read download link on any
   * report that is not cancelled.
   */
  predicate Offered(kind: Kind, status: string, action: Action)
  {
    match (kind, action)
    case (RequestKind, Approve) => status == "waiting"
    case (RequestKind, Reject) => status == "waiting"
    case (RequestKind, Cancel) => status == "waiting"
    case (LeaveKind, Cancel) => status == "waiting"
    case (ReportKind, Cancel) => status == "unread"
    case (ReportKind, MarkRead) => status != "cancelled"
    case _ => false
  }

  /** The status an action leaves behind. */
  function Target(action: Action): string
  {
    match action
    case Approve => "approved"
    case Reject => "rejected"
    case Cancel => "cancelled"
    case MarkRead => "read"
  }

  /** One user action: an action whose control is not rendered does nothing. */
  function Step(kind: Kind, status: string, action: Action): (r: string)
    ensures Offered(kind, status, action) ==> r == Target(action)
    ensures !Offered(kind, status, action) ==> r == status
  {
    if Offered(kind, status, action) then Target(action) else status
  }

  /** A sequence of user actions, one after another. */
  function Run(kind: Kind, status: string, actions: seq<Action>): string
    decreases |actions|
  {
    if actions == [] then status else Run(kind, Step(kind, status, actions[0]), actions[1..])
  }

  /** Once a request or leave has left 'waiting', no page changes its status. */
  lemma {:induction false} DecidedIsFinal(kind: Kind, status: string, actions: seq<Action>)
    requires kind != ReportKind && status != "waiting"
    ensures Run(kind, status, actions) == status
  {
    if actions != [] {
      DecidedIsFinal(kind, status, actions[1..]);
    }
  }

  /** From 'waiting', a request or leave only ever reaches approved, rejected or cancelled. */
  lemma {:induction false} FromWaiting(kind: Kind, actions: seq<Action>)
    requires kind != ReportKind
    ensures Run(kind, "waiting", actions) in {"waiting", "approved", "rejected", "cancelled"}
  {
    if actions != [] {
      var next := Step(kind, "waiting", actions[0]);
      if next == "waiting" {
        FromWaiting(kind, actions[1..]);
      } else {
        DecidedIsFinal(kind, next, actions[1..]);
      }
    }
  }

  /** The leave tab of an employee's profile offers only Cancel, so a waiting leave can only be cancelled there. */
  lemma {:induction false} LeaveOnlyCancels(actions: seq<Action>)
    ensures Run(LeaveKind, "waiting", actions) in {"waiting", "cancelled"}
  {
    if actions != [] {
      var next := Step(LeaveKind, "waiting", actions[0]);
      if next == "waiting" {
        LeaveOnlyCancels(actions[1..]);
      } else {
        DecidedIsFinal(LeaveKind, next, actions[1..]);
      }
    }
  }

  /**
   * A read or cancelled report keeps its status: a read report is offered
   * only the download link, which asks for 'read' again, and a cancelled one
   * is offered nothing.
   */
  lemma {:induction false} SettledReportIsFinal(status: string, actions: seq<Action>)
    requires status == "read" || status == "cancelled"
    ensures Run(ReportKind, status, actions) == status
  {
    if actions != [] {
      SettledReportIsFinal(status, actions[1..]);
    }
  }

  /** From 'unread', a report only ever reaches read or cancelled. */
  lemma {:induction false} FromUnread(actions: seq<Action>)
    ensures Run(ReportKind, "unread", actions) in {"unread", "read", "cancelled"}
  {
    if actions != [] {
      var next := Step(ReportKind, "unread", actions[0]);
      if next == "unread" {
        FromUnread(actions[1..]);
      } else {
        SettledReportIsFinal(next, actions[1..]);
      }
    }
  }

  /** The approve payload: who approved, when, and the uploaded approval file; no status. */
  function ApprovePayload(actor: string, date: string, url: string, file: LocalFile): (r: Doc)
    ensures r.Keys == {"approved"} && "status" !in r
    ensures NestedStr(r, "approved", "by") == actor && NestedStr(r, "approved", "date") == date
    ensures r["approved"].Obj? && "file" in r["approved"].fields
    ensures r["approved"].fields["file"] == FileObject(url, file)
  {
    map["approved" := Obj(map["by" := Str(actor), "date" := Str(date), "file" := FileObject(url, file)])]
  }

  /** The reject payload: who rejected and when; no status. */
  function RejectPayload(actor: string, date: string): (r: Doc)
    ensures r.Keys == {"rejected"} && "status" !in r
    ensures NestedStr(r, "rejected", "by") == actor && NestedStr(r, "rejected", "date") == date
  {
    map["rejected" := Obj(map["by" := Str(actor), "date" := Str(date)])]
  }

  /** The cancel payload of requests, leaves and reports. */
  function CancelPayload(): (r: Doc)
    ensures r.Keys == {"status"} && StatusOf(r) == Target(Cancel)
  {
    map["status" := Str("cancelled")]
  }

  /** The mark-read payload of reports. */
  function MarkReadPayload(): (r: Doc)
    ensures r.Keys == {"status"} && StatusOf(r) == Target(MarkRead)
  {
    map["status" := Str("read")]
  }

  /** A new request: owner, type, purpose and uploaded file; no status. */
  function NewRequestPayload(userId: string, kind: string, purpose: string, url: string, file: LocalFile): (r: Doc)
    ensures r.Keys == {"user", "type", "purpose", "file"} && "status" !in r
    ensures NestedStr(r, "user", "id") == userId
    ensures r["type"] == Str(kind) && r["purpose"] == Str(purpose) && r["file"] == FileObject(url, file)
  {
    map["user" := Obj(map["id" := Str(userId)]), "type" := Str(kind), "purpose" := Str(purpose),
        "file" := FileObject(url, file)]
  }

  /** A new report: owner, type, description and uploaded file; no status. */
  function NewReportPayload(userId: string, kind: string, description: string, url: string, file: LocalFile): (r: Doc)
    ensures r.Keys == {"user", "type", "description", "file"} && "status" !in r
    ensures NestedStr(r, "user", "id") == userId
    ensures r["type"] == Str(kind) && r["description"] == Str(description) && r["file"] == FileObject(url, file)
  {
    map["user" := Obj(map["id" := Str(userId)]), "type" := Str(kind), "description" := Str(description),
        "file" := FileObject(url, file)]
  }

  /** A request created from the page is 'waiting' and carries the page's fields. */
  lemma SubmittedRequestWaits(userId: string, kind: string, purpose: string, url: string, file: LocalFile,
                              now: string)
    ensures var d := FillDefaults(Schemas.RequestDefaults(), Stamped(NewRequestPayload(userId, kind, purpose, url, file), now));
      && StatusOf(d) == Initial(RequestKind)
      && StrField(d, "created") == now && StrField(d, "updated") == now
      && d["type"] == Str(kind) && d["purpose"] == Str(purpose)
  {
    var p := Stamped(NewRequestPayload(userId, kind, purpose, url, file), now);
    assert "status" !in p && p["created"] == Str(now) && p["updated"] == Str(now);
    assert p["type"] == Str(kind) && p["purpose"] == Str(purpose);
    Schemas.NewRequestStatus(p);
  }

  /**
   * A report created from the page's body is 'unread': the body names no
   * status, so the schema default applies. The reports POST route is not
   * part of this model, so the body is stored as the page sends it.
   */
  lemma SubmittedReportUnread(userId: string, kind: string, description: string, url: string, file: LocalFile)
    ensures StatusOf(FillDefaults(Schemas.ReportDefaults(), NewReportPayload(userId, kind, description, url, file)))
      == Initial(ReportKind)
  {
  }

  /**
   * The server side of cancelling a request: PATCH /requests writes 'cancelled'
   * whatever the stored status was, so an approved or rejected request can be
   * cancelled by a direct call; the pages alone prevent it.
   */
  lemma ServerCancelsFromAnyStatus(rec: Record, now: string, clock: int)
    ensures StatusOf(Applied(rec, CancelUpdate(CancelPayload(), now), clock).doc) == Target(Cancel)
    ensures NestedStr(Applied(rec, CancelUpdate(CancelPayload(), now), clock).doc, "cancelled", "date") == now
  {
  }

  /** The server side of rejecting: the page's payload yields 'rejected' from any status. */
  lemma ServerRejectsFromAnyStatus(rec: Record, actor: string, date: string, now: string, clock: int)
    ensures var d := Applied(rec, RejectUpdate(RejectPayload(actor, date), now), clock).doc;
      && StatusOf(d) == Target(Reject)
      && NestedStr(d, "rejected", "by") == actor && NestedStr(d, "rejected", "date") == date
  {
  }

  /** Marking a report read twice is marking it read once. */
  lemma MarkReadIdempotent(doc: Doc)
    ensures Merge(Merge(doc, MarkReadPayload()), MarkReadPayload()) == Merge(doc, MarkReadPayload())
    ensures StatusOf(Merge(doc, MarkReadPayload())) == "read"
  {
  }

  /**
   * ViewModal.onApprove: without a file, an error and nothing sent; otherwise
   * for each item of `[files]` upload it and send the approval.
   */
  method OnApprove(client: ApiClient, requestId: string, files: Option<LocalFile>,
                   upload: LocalFile -> string, actor: string, now: string) returns (error: Option<string>)
    modifies client
    ensures files.None? ==> error == Some("Please attach file.") && client.sent == old(client.sent)
    ensures files.Some? ==>
      error == None && client.sent == old(client.sent) + [Update("/requests/employee/approve", requestId, ApprovePayload(actor, now, upload(files.value), files.value))]
  {
    if files.None? {
      return Some("Please attach file.");
    }
    error := None;
    var items := [files.value];
    for i := 0 to |items|
      invariant client.sent == old(client.sent) +
        (if i == 0 then [] else [Update("/requests/employee/approve", requestId, ApprovePayload(actor, now, upload(files.value), files.value))])
    {
      var url := upload(items[i]);
      client.Send(Update("/requests/employee/approve", requestId, ApprovePayload(actor, now, url, files.value)));
    }
  }

  /** ViewModal.onReject: send who rejected and when to the reject route. */
  method OnReject(client: ApiClient, requestId: string, actor: string, now: string)
    modifies client
    ensures client.sent == old(client.sent) + [Update("/requests/employee/reject", requestId, RejectPayload(actor, now))]
  {
    client.Send(Update("/requests/employee/reject", requestId, RejectPayload(actor, now)));
  }

  /** AddRequestModal.onSubmit: without a file, an error and nothing created. */
  method SubmitRequest(client: ApiClient, files: Option<LocalFile>, upload: LocalFile -> string,
                       userId: string, kind: string, purpose: string) returns (error: Option<string>)
    modifies client
    ensures files.None? ==> error == Some("Please attach file.") && client.sent == old(client.sent)
    ensures files.Some? ==>
      error == None && client.sent == old(client.sent) + [Create("/requests", NewRequestPayload(userId, kind, purpose, upload(files.value), files.value))]
  {
    if files.None? {
      return Some("Please attach file.");
    }
    error := None;
    var items := [files.value];
    for i := 0 to |items|
      invariant client.sent == old(client.sent) +
        (if i == 0 then [] else [Create("/requests", NewRequestPayload(userId, kind, purpose, upload(files.value), files.value))])
    {
      var url := upload(items[i]);
      client.Send(Create("/requests", NewRequestPayload(userId, kind, purpose, url, files.value)));
    }
  }

  /** AddReportModal.onSubmit: without a file, an error and nothing created. */
  method SubmitReport(client: ApiClient, files: Option<LocalFile>, upload: LocalFile -> string,
                      userId: string, kind: string, description: string) returns (error: Option<string>)
    modifies client
    ensures files.None? ==> error == Some("Please attach file.") && client.sent == old(client.sent)
    ensures files.Some? ==>
      error == None && client.sent == old(client.sent) + [Create("/reports", NewReportPayload(userId, kind, description, upload(files.value), files.value))]
  {
    if files.None? {
      return Some("Please attach file.");
    }
    error := None;
    var items := [files.value];
    for i := 0 to |items|
      invariant client.sent == old(client.sent) +
        (if i == 0 then [] else [Create("/reports", NewReportPayload(userId, kind, description, upload(files.value), files.value))])
    {
      var url := upload(items[i]);
      client.Send(Create("/reports", NewReportPayload(userId, kind, description, url, files.value)));
    }
  }

  /** The route each kind's cancel goes to. */
  function CancelPath(kind: Kind): string
  {
    match kind
    case RequestKind => "/requests"
    case LeaveKind => "/leaves"
    case ReportKind => "/reports"
  }

  /** The owner's cancel button: rendered only when offered; a click sends `{status:'cancelled'}`. */
  method CancelClicked(client: ApiClient, kind: Kind, id: string, status: string)
    modifies client
    ensures Offered(kind, status, Cancel) ==> client.sent == old(client.sent) + [Update(CancelPath(kind), id, CancelPayload())]
    ensures !Offered(kind, status, Cancel) ==> client.sent == old(client.sent)
  {
    if Offered(kind, status, Cancel) {
      client.Send(Update(CancelPath(kind), id, CancelPayload()));
    }
  }

  /**
   * The admin's download control on a report: a cancelled report gets a
   * button without a link; any other report's link sends `{status:'read'}`.
   */
  method DownloadClicked(client: ApiClient, reportId: string, status: string)
    modifies client
    ensures status == "cancelled" ==> client.sent == old(client.sent)
    ensures status != "cancelled" ==> client.sent == old(client.sent) + [Update("/reports", reportId, MarkReadPayload())]
  {
    if status != "cancelled" {
      client.Send(Update("/reports", reportId, MarkReadPayload()));
    }
  }
}

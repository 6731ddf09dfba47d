/**
 * Field defaults of the three schemas in the model (requests, reports,
 * users). A schema's defaults are the document Mongoose would store for an
 * empty `create({})`; `FillDefaults` applies them to a real payload.
 */
module Schemas {
  import opened Documents

  /** The `{url, name, size}` file sub-object: strings default to "", size to 0. */
  function FileDefaults(): Value
  {
    Obj(map["url" := Str(""), "name" := Str(""), "size" := Num(0)])
  }

  /** RequestSchema defaults. */
  function RequestDefaults(): Doc
  {
    map[
      "user" := Obj(map["id" := Str("")]),
      "type" := Str(""),
      "purpose" := Str(""),
      "file" := FileDefaults(),
      "approved" := Obj(map["by" := Str(""), "date" := Str(""), "file" := FileDefaults()]),
      "rejected" := Obj(map["by" := Str(""), "date" := Str("")]),
      "cancelled" := Obj(map["date" := Str("")]),
      "status" := Str("waiting"),
      "created" := Str(""),
      "updated" := Str("")
    ]
  }

  /** ReportSchema defaults. */
  function ReportDefaults(): Doc
  {
    map[
      "user" := Obj(map["id" := Str("")]),
      "type" := Str(""),
      "description" := Str(""),
      "file" := FileDefaults(),
      "status" := Str("unread"),
      "created" := Str(""),
      "updated" := Str("")
    ]
  }

  /** The profile strings of UserSchema, all defaulting to "". */
  const ProfileFields: seq<string> :=
    ["name", "email", "image", "resume", "department", "designation", "gender",
     "contact", "address", "hired_date", "contract_end_date", "created", "updated"]

  /** UserSchema defaults. */
  function UserDefaults(): Doc
  {
    map[
      "name" := Str(""), "email" := Str(""), "image" := Str(""), "resume" := Str(""),
      "department" := Str(""), "designation" := Str(""), "gender" := Str(""),
      "contact" := Str(""), "address" := Str(""),
      "hired_date" := Str(""), "contract_end_date" := Str(""),
      "role" := Str("User"),
      "status" := Str("active"),
      "suspended" := Obj(map["duration" := Str("")]),
      "terminated" := Obj(map["files" := Str("")]),
      "resigned" := Obj(map["files" := Str("")]),
      "created" := Str(""),
      "updated" := Str("")
    ]
  }

  /** A new request is 'waiting' unless its payload names a status. */
  lemma NewRequestStatus(data: Doc)
    ensures "status" !in data ==> StatusOf(FillDefaults(RequestDefaults(), data)) == "waiting"
    ensures "status" in data ==> FillDefaults(RequestDefaults(), data)["status"] == data["status"]
  {
  }

  /**
   * A request created without approval, rejection or cancellation data has
   * every decision field empty: approved.by/date "", approved.file empty with
   * size 0, rejected.by/date "", cancelled.date "".
   */
  lemma NewRequestDecisionFields(data: Doc)
    requires "approved" !in data && "rejected" !in data && "cancelled" !in data
    ensures var d := FillDefaults(RequestDefaults(), data);
      && NestedStr(d, "approved", "by") == "" && NestedStr(d, "approved", "date") == ""
      && d["approved"].fields["file"] == FileDefaults()
      && NestedStr(d, "rejected", "by") == "" && NestedStr(d, "rejected", "date") == ""
      && NestedStr(d, "cancelled", "date") == ""
  {
  }

  /**
   * A submitted file object that gives some of `url`, `name` and `size`
   * keeps every part it gives and takes the default of every part it leaves
   * out.
   */
  lemma NewRequestFileDefaults(data: Doc)
    requires "file" in data && data["file"].Obj? && data["file"].fields.Keys <= FileDefaults().fields.Keys
    ensures var d := FillDefaults(RequestDefaults(), data);
      && d["file"].Obj? && d["file"].fields.Keys == FileDefaults().fields.Keys
      && (forall k :: k in data["file"].fields ==> d["file"].fields[k] == data["file"].fields[k])
      && (forall k :: k in FileDefaults().fields && k !in data["file"].fields ==>
            d["file"].fields[k] == FileDefaults().fields[k])
  {
    var d := FillDefaults(RequestDefaults(), data);
    assert d["file"] == FillValue(FileDefaults(), data["file"]);
  }

  /** A file object that gives only a url gets an empty name and size 0. */
  lemma NewRequestUrlOnlyFile(data: Doc, url: string)
    requires "file" in data && data["file"] == Obj(map["url" := Str(url)])
    ensures FillDefaults(RequestDefaults(), data)["file"]
      == Obj(map["url" := Str(url), "name" := Str(""), "size" := Num(0)])
  {
    NewRequestFileDefaults(data);
    var f := FillDefaults(RequestDefaults(), data)["file"].fields;
    assert f.Keys == {"url", "name", "size"};
    assert f["url"] == Str(url) && f["name"] == Str("") && f["size"] == Num(0);
  }

  /** A new report is 'unread' unless its payload names a status. */
  lemma NewReportStatus(data: Doc)
    ensures "status" !in data ==> StatusOf(FillDefaults(ReportDefaults(), data)) == "unread"
    ensures "status" in data ==> FillDefaults(ReportDefaults(), data)["status"] == data["status"]
  {
  }

  /** A new user is an active 'User' with empty suspension and separation files. */
  lemma NewUserDefaults(data: Doc)
    requires "role" !in data && "status" !in data
    requires "suspended" !in data && "terminated" !in data && "resigned" !in data
    ensures var d := FillDefaults(UserDefaults(), data);
      && StrField(d, "role") == "User" && StatusOf(d) == "active"
      && NestedStr(d, "suspended", "duration") == ""
      && NestedStr(d, "terminated", "files") == "" && NestedStr(d, "resigned", "files") == ""
  {
  }

  /** Every profile string of a new user that the payload leaves out is "". */
  lemma NewUserProfileEmpty(data: Doc, field: string)
    requires field in ProfileFields && field !in data
    ensures StrField(FillDefaults(UserDefaults(), data), field) == ""
  {
    var i :| 0 <= i < |ProfileFields| && ProfileFields[i] == field;
    assert UserDefaults()[ProfileFields[i]] == Str("");
  }
}

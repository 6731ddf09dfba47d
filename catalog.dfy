/**
 * The admin pages that keep the company's reference lists and memos:
 * meetings, announcements, holidays, departments, designations, and the
 * request and report types. Each form sends one mutation; names and
 * descriptions are lower-cased before they are sent, a meeting carries its
 * uploaded file only when one was attached, and a delete sends the row's id.
 */
module Catalog {
  import opened Text
  import opened Documents
  import opened Store
  import opened Api
  import opened Client
  import opened Memos
  import Tables

  /** The fields of the meeting form. */
  datatype MeetingForm = MeetingForm(description: string, department: string, date: string, time: string)

  /** The meeting payload: the four form fields, plus `file` when an upload was made. */
  function MeetingPayload(form: MeetingForm, upload: Option<(string, LocalFile)>): (r: Doc)
    ensures upload.None? ==> r.Keys == {"description", "department", "date", "time"}
    ensures upload.Some? ==> r.Keys == {"description", "department", "date", "time", "file"}
    ensures r["description"] == Str(form.description) && r["department"] == Str(form.department)
    ensures r["date"] == Str(form.date) && r["time"] == Str(form.time)
    ensures upload.Some? ==> r["file"] == FileObject(upload.value.0, upload.value.1)
  {
    var fields := map["description" := Str(form.description), "department" := Str(form.department),
                      "date" := Str(form.date), "time" := Str(form.time)];
    if upload.Some? then fields + map["file" := FileObject(upload.value.0, upload.value.1)] else fields
  }

  /** The call a meeting form sends: a create when adding, an update of that meeting when editing. */
  function MeetingCall(editing: Option<string>, data: Doc): Call
  {
    if editing.Some? then Update("/meetings", editing.value, data) else Create("/meetings", data)
  }

  /**
   * AddMeeting/EditMeeting onSubmit: with a file, upload it and send the
   * payload with the returned url; without one, send the four fields only.
   */
  method SaveMeeting(client: ApiClient, editing: Option<string>, form: MeetingForm,
                     files: Option<LocalFile>, upload: LocalFile -> string)
    modifies client
    ensures files.None? ==> client.sent == old(client.sent) + [MeetingCall(editing, MeetingPayload(form, None))]
    ensures files.Some? ==>
      client.sent == old(client.sent) + [MeetingCall(editing, MeetingPayload(form, Some((upload(files.value), files.value))))]
  {
    if files.Some? {
      var items := [files.value];
      for i := 0 to |items|
        invariant client.sent == old(client.sent) +
          (if i == 0 then [] else [MeetingCall(editing, MeetingPayload(form, Some((upload(files.value), files.value))))])
      {
        var url := upload(items[i]);
        client.Send(MeetingCall(editing, MeetingPayload(form, Some((url, files.value)))));
      }
    } else {
      client.Send(MeetingCall(editing, MeetingPayload(form, None)));
    }
  }

  /** Editing a meeting without attaching a file keeps the file it already had. */
  lemma MeetingEditKeepsFile(rec: Record, form: MeetingForm, now: string, clock: int)
    requires "file" in rec.doc
    ensures Applied(rec, Stamped(MeetingPayload(form, None), now), clock).doc["file"] == rec.doc["file"]
  {
    var update := Stamped(MeetingPayload(form, None), now);
    assert "file" !in update;
  }

  /** Editing a meeting with a new file replaces the stored file object. */
  lemma MeetingEditReplacesFile(rec: Record, form: MeetingForm, url: string, file: LocalFile, now: string, clock: int)
    ensures Applied(rec, Stamped(MeetingPayload(form, Some((url, file))), now), clock).doc["file"] == FileObject(url, file)
  {
  }

  /** The department chosen in the form decides who is mailed about the meeting. */
  lemma MeetingFormAudience(form: MeetingForm, upload: Option<(string, LocalFile)>, user: Doc)
    ensures Addressed(user, MeetingAudience(MeetingPayload(form, upload))) <==>
      form.department == "all" || Field(user, "department") == Some(Str(form.department))
  {
    var data := MeetingPayload(form, upload);
    assert Field(data, "department") == Some(Str(form.department));
  }

  /** `{ name: data.name.toLowerCase() }`, sent by the department, designation and type forms. */
  function NamePayload(name: string): (r: Doc)
    ensures r.Keys == {"name"} && r["name"].Str?
    ensures |r["name"].s| == |name|
    ensures forall i :: 0 <= i < |name| ==> r["name"].s[i] == LowerChar(name[i])
  {
    map["name" := Str(ToLower(name))]
  }

  /** `{ description: data.description.toLowerCase(), date: data.date }`, sent by announcements and holidays. */
  function DescriptionPayload(description: string, date: string): (r: Doc)
    ensures r.Keys == {"description", "date"} && r["date"] == Str(date) && r["description"].Str?
    ensures |r["description"].s| == |description|
    ensures forall i :: 0 <= i < |description| ==> r["description"].s[i] == LowerChar(description[i])
  {
    map["description" := Str(ToLower(description)), "date" := Str(date)]
  }

  /** Saving a name that was already saved sends it unchanged. */
  lemma NameSavedTwice(name: string)
    ensures NamePayload(StrField(NamePayload(name), "name")) == NamePayload(name)
  {
    ToLowerIdempotent(name);
  }

  /** Names that differ only in letter case are stored as the same name. */
  lemma NameIgnoresCase(a: string, b: string)
    requires |a| == |b|
    requires forall i :: 0 <= i < |a| ==> LowerChar(a[i]) == LowerChar(b[i])
    ensures NamePayload(a) == NamePayload(b)
  {
    assert ToLower(a) == ToLower(b);
  }

  /** A saved name is found by the table search for that name typed in any letter case. */
  lemma SavedNameIsFound(name: string, typed: string)
    requires ToLower(typed) == ToLower(name)
    ensures Tables.KeyMatches(NamePayload(name), "name", typed)
  {
    ToLowerIdempotent(name);
    var stored := ToLower(ToLower(name));
    assert OccursAt(stored, ToLower(typed), 0);
  }

  /** A saved description is found by the table search for it, in any letter case. */
  lemma SavedDescriptionIsFound(description: string, date: string, typed: string)
    requires ToLower(typed) == ToLower(description)
    ensures Tables.KeyMatches(DescriptionPayload(description, date), "description", typed)
  {
    ToLowerIdempotent(description);
    var stored := ToLower(ToLower(description));
    assert OccursAt(stored, ToLower(typed), 0);
  }

  /** The department, designation, request-type and report-type forms. */
  method SaveName(client: ApiClient, path: string, editing: Option<string>, name: string)
    modifies client
    ensures editing.None? ==> client.sent == old(client.sent) + [Create(path, NamePayload(name))]
    ensures editing.Some? ==> client.sent == old(client.sent) + [Update(path, editing.value, NamePayload(name))]
  {
    if editing.Some? {
      client.Send(Update(path, editing.value, NamePayload(name)));
    } else {
      client.Send(Create(path, NamePayload(name)));
    }
  }

  /** The announcement and holiday forms. */
  method SaveDescription(client: ApiClient, path: string, editing: Option<string>, description: string, date: string)
    modifies client
    ensures editing.None? ==> client.sent == old(client.sent) + [Create(path, DescriptionPayload(description, date))]
    ensures editing.Some? ==>
      client.sent == old(client.sent) + [Update(path, editing.value, DescriptionPayload(description, date))]
  {
    if editing.Some? {
      client.Send(Update(path, editing.value, DescriptionPayload(description, date)));
    } else {
      client.Send(Create(path, DescriptionPayload(description, date)));
    }
  }

  /** Every delete button: remove the row by its id. */
  method DeleteClicked(client: ApiClient, path: string, id: string)
    modifies client
    ensures client.sent == old(client.sent) + [Remove(path, id)]
  {
    client.Send(Remove(path, id));
  }
}

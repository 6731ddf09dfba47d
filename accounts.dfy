/**
 * Employee account state as the admin pages change it: the status form and
 * its separation-file effect, the role selector, the avatar picker and the
 * promotion of a 'User' to 'Employee'.
 */
module Accounts {
  import opened Documents
  import opened Store
  import opened Api
  import opened Client

  /** The statuses the status select offers. */
  const StatusOptions: set<string> := {"active", "warning", "suspended", "restricted", "terminated", "resigned"}

  /** `{suspended: {duration: d}}`. */
  function Suspension(duration: string): Value
  {
    Obj(map["duration" := Str(duration)])
  }

  /**
   * The status form's onSubmit: active, warning and restricted clear the
   * suspension; suspended records the chosen duration; any other choice
   * sends nothing.
   */
  function StatusPayload(chosen: string, duration: string): (r: Option<Doc>)
    ensures r.Some? <==> chosen in {"active", "warning", "suspended", "restricted"}
    ensures r.Some? ==> r.value.Keys == {"status", "suspended"} && StatusOf(r.value) == chosen
    ensures r.Some? ==> NestedStr(r.value, "suspended", "duration") == (if chosen == "suspended" then duration else "")
  {
    if chosen == "active" || chosen == "warning" || chosen == "restricted" then
      Some(map["status" := Str(chosen), "suspended" := Suspension("")])
    else if chosen == "suspended" then
      Some(map["status" := Str("suspended"), "suspended" := Suspension(duration)])
    else None
  }

  /**
   * The terminated/resigned effect's payload: the status, a cleared
   * suspension, and the uploaded file under the status's own key.
   */
  function SeparationPayload(status: string, url: string): (r: Doc)
    requires status == "terminated" || status == "resigned"
    ensures r.Keys == {"status", "suspended", status}
    ensures StatusOf(r) == status && NestedStr(r, "suspended", "duration") == ""
    ensures NestedStr(r, status, "files") == url
  {
    map["status" := Str(status), "suspended" := Suspension(""), status := Obj(map["files" := Str(url)])]
  }

  /** Deleting a supporting file clears only that file; the status is not sent. */
  function DeleteFilePayload(which: string): (r: Doc)
    requires which == "terminated" || which == "resigned"
    ensures r.Keys == {which} && "status" !in r
    ensures NestedStr(r, which, "files") == ""
  {
    map[which := Obj(map["files" := Str("")])]
  }

  /** The Save button: a changed choice that is neither terminated nor resigned. */
  predicate SaveVisible(chosen: string, stored: string)
  {
    chosen != stored && chosen != "terminated" && chosen != "resigned"
  }

  /** The status and role selects are disabled unless the session user is an Admin. */
  predicate SelectDisabled(sessionRole: string)
  {
    sessionRole != "Admin"
  }

  /**
   * The value a select holds: it starts at the stored value, and only an
   * enabled select takes the value the session user picks.
   */
  function Selected(sessionRole: string, stored: string, picked: string): (r: string)
    ensures SelectDisabled(sessionRole) ==> r == stored
    ensures !SelectDisabled(sessionRole) ==> r == picked
  {
    if sessionRole == "Admin" then picked else stored
  }

  /** Whenever Save is shown for an offered status, submitting sends a payload. */
  lemma SaveSendsPayload(chosen: string, stored: string, duration: string)
    requires chosen in StatusOptions && SaveVisible(chosen, stored)
    ensures StatusPayload(chosen, duration).Some?
  {
  }

  /** Terminated and resigned never go through the form; only the upload effect sends them. */
  lemma SeparationNeedsUpload(chosen: string, stored: string, duration: string)
    requires chosen == "terminated" || chosen == "resigned"
    ensures !SaveVisible(chosen, stored) && StatusPayload(chosen, duration).None?
  {
  }

  /** The status form's onSubmit. */
  method SubmitStatus(client: ApiClient, userId: string, chosen: string, duration: string)
    modifies client
    ensures StatusPayload(chosen, duration).None? ==> client.sent == old(client.sent)
    ensures StatusPayload(chosen, duration).Some? ==>
      client.sent == old(client.sent) + [Update("/users", userId, StatusPayload(chosen, duration).value)]
  {
    if chosen == "active" {
      client.Send(Update("/users", userId, map["status" := Str("active"), "suspended" := Suspension("")]));
    } else if chosen == "warning" {
      client.Send(Update("/users", userId, map["status" := Str("warning"), "suspended" := Suspension("")]));
    } else if chosen == "suspended" {
      client.Send(Update("/users", userId, map["status" := Str("suspended"), "suspended" := Suspension(duration)]));
    } else if chosen == "restricted" {
      client.Send(Update("/users", userId, map["status" := Str("restricted"), "suspended" := Suspension("")]));
    }
  }

  /**
   * The effect run when a file is picked: with 'terminated' or 'resigned'
   * chosen, upload each item of `[files]` and send the separation payload
   * with the last upload's URL.
   */
  method SeparationEffect(client: ApiClient, userId: string, chosen: string,
                          files: Option<LocalFile>, upload: LocalFile -> string)
    modifies client
    ensures (chosen == "terminated" || chosen == "resigned") && files.Some? ==>
      client.sent == old(client.sent) + [Update("/users", userId, SeparationPayload(chosen, upload(files.value)))]
    ensures !((chosen == "terminated" || chosen == "resigned") && files.Some?) ==> client.sent == old(client.sent)
  {
    if (chosen == "terminated" || chosen == "resigned") && files.Some? {
      var items := [files.value];
      var url := "";
      for i := 0 to |items|
        invariant i == 1 ==> url == upload(files.value)
      {
        url := upload(items[i]);
      }
      client.Send(Update("/users", userId, SeparationPayload(chosen, url)));
    }
  }

  /** Clicking delete on a terminated or resigned supporting file. */
  method DeleteFileClicked(client: ApiClient, userId: string, which: string)
    requires which == "terminated" || which == "resigned"
    modifies client
    ensures client.sent == old(client.sent) + [Update("/users", userId, DeleteFilePayload(which))]
  {
    client.Send(Update("/users", userId, DeleteFilePayload(which)));
  }

  /**
   * The role selector's effect: an update is sent only when the edited
   * user's stored role is 'Admin' and the selection differs from it.
   */
  function RoleUpdate(storedRole: string, selected: string): (r: Option<Doc>)
    ensures r.Some? <==> storedRole == "Admin" && selected != "Admin"
    ensures r.Some? ==> r.value == map["role" := Str(selected)]
  {
    if storedRole == "Admin" && selected != storedRole then Some(map["role" := Str(selected)]) else None
  }

  /** The selector starts at the stored role, so opening it sends nothing. */
  lemma RoleSelectorStartsQuiet(storedRole: string)
    ensures RoleUpdate(storedRole, storedRole).None?
  {
  }

  /** An Employee or User is never given a new role by this selector. */
  lemma OnlyAdminsChangeRole(storedRole: string, selected: string)
    requires storedRole != "Admin"
    ensures RoleUpdate(storedRole, selected).None?
  {
  }

  /**
   * A session user who is not an Admin cannot change an account: the status
   * select keeps the stored status, so Save is hidden, and the role select
   * keeps the stored role, so no role update is sent.
   */
  lemma NonAdminChangesNothing(sessionRole: string, storedStatus: string, pickedStatus: string,
                               storedRole: string, pickedRole: string)
    requires SelectDisabled(sessionRole)
    ensures !SaveVisible(Selected(sessionRole, storedStatus, pickedStatus), storedStatus)
    ensures RoleUpdate(storedRole, Selected(sessionRole, storedRole, pickedRole)).None?
  {
    assert Selected(sessionRole, storedRole, pickedRole) == storedRole;
    RoleSelectorStartsQuiet(storedRole);
  }

  method RoleEffect(client: ApiClient, userId: string, storedRole: string, selected: string)
    modifies client
    ensures RoleUpdate(storedRole, selected).None? ==> client.sent == old(client.sent)
    ensures RoleUpdate(storedRole, selected).Some? ==>
      client.sent == old(client.sent) + [Update("/users", userId, map["role" := Str(selected)])]
  {
    if storedRole == "Admin" {
      if selected != storedRole {
        client.Send(Update("/users", userId, map["role" := Str(selected)]));
      }
    }
  }

  /** The largest avatar accepted: 5120 × 5120 bytes. */
  const MaxImageBytes: int := 5120 * 5120

  datatype ImageCheck = Accepted(file: LocalFile) | Refused(message: string)

  /** handleImage: presence, then size, then type. */
  function CheckImage(picked: Option<LocalFile>): (r: ImageCheck)
    ensures r.Accepted? <==>
      picked.Some? && picked.value.size <= 26214400 && picked.value.mime in {"image/jpeg", "image/png"}
    ensures r.Accepted? ==> r.file == picked.value
    ensures picked.None? ==> r == Refused("file does not exists.")
    ensures picked.Some? && picked.value.size > 26214400 ==> r == Refused("Largest image size is 5mb.")
    ensures picked.Some? && picked.value.size <= 26214400 && picked.value.mime !in {"image/jpeg", "image/png"} ==>
      r == Refused("Image format is incorrect.")
  {
    if picked.None? then Refused("file does not exists.")
    else if picked.value.size > MaxImageBytes then Refused("Largest image size is 5mb.")
    else if picked.value.mime != "image/jpeg" && picked.value.mime != "image/png" then Refused("Image format is incorrect.")
    else Accepted(picked.value)
  }

  /** An oversized file of the wrong type is reported as too large: size is checked first. */
  lemma SizeReportedBeforeType(f: LocalFile)
    requires f.size > MaxImageBytes && f.mime != "image/jpeg" && f.mime != "image/png"
    ensures CheckImage(Some(f)) == Refused("Largest image size is 5mb.")
  {
  }

  /** The avatar effect: for each item of `[image]`, upload it and send only its URL. */
  method UploadAvatar(client: ApiClient, userId: string, image: Option<LocalFile>, upload: LocalFile -> string)
    modifies client
    ensures image.None? ==> client.sent == old(client.sent)
    ensures image.Some? ==>
      client.sent == old(client.sent) + [Update("/users/avatar", userId, map["image" := Str(upload(image.value))])]
  {
    if image.Some? {
      var items := [image.value];
      for i := 0 to |items|
        invariant client.sent == old(client.sent) +
          (if i == 0 then [] else [Update("/users/avatar", userId, map["image" := Str(upload(image.value))])])
      {
        client.Send(Update("/users/avatar", userId, map["image" := Str(upload(items[i]))]));
      }
    }
  }

  /** Picking a file and letting the effect run: only an accepted image is uploaded. */
  method PickAvatar(client: ApiClient, userId: string, picked: Option<LocalFile>, upload: LocalFile -> string)
    returns (error: Option<string>)
    modifies client
    ensures CheckImage(picked).Refused? ==> error == Some(CheckImage(picked).message) && client.sent == old(client.sent)
    ensures CheckImage(picked).Accepted? ==>
      error == None && client.sent == old(client.sent) + [Update("/users/avatar", userId, map["image" := Str(upload(picked.value))])]
  {
    var check := CheckImage(picked);
    if check.Refused? {
      return Some(check.message);
    }
    error := None;
    UploadAvatar(client, userId, Some(check.file), upload);
  }

  /** The promotion form's payload: the form fields with role forced to 'Employee'. */
  function PromotionPayload(form: Doc): (r: Doc)
    ensures r.Keys == form.Keys + {"role"}
    ensures r["role"] == Str("Employee")
    ensures forall k :: k in form && k != "role" ==> r[k] == form[k]
  {
    form + map["role" := Str("Employee")]
  }

  method SubmitPromotion(client: ApiClient, selectedUserId: string, form: Doc)
    modifies client
    ensures client.sent == old(client.sent) + [Update("/users/promote", selectedUserId, PromotionPayload(form))]
  {
    client.Send(Update("/users/promote", selectedUserId, PromotionPayload(form)));
  }

  /**
   * Through the promote route, the user becomes an 'Employee' whatever role
   * the form held, keeps `created` and its creation time, and has `updated`
   * stamped.
   */
  lemma PromotedUserIsEmployee(rec: Record, form: Doc, now: string, clock: int)
    requires "created" !in form
    ensures var r := Applied(rec, Touched(PromotionPayload(form), now), clock);
      && StrField(r.doc, "role") == "Employee"
      && Field(r.doc, "created") == Field(rec.doc, "created") && r.createdAt == rec.createdAt
      && StrField(r.doc, "updated") == now
  {
  }
}

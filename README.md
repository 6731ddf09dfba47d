# ctxpress HR portal — a Dafny model

ctxpress is a Next.js human-resources portal. Admins keep employees,
requests, leaves, reports, meetings, announcements, holidays, departments and
designations. Users and employees file requests and reports and follow their
status. This project models the parts of the portal that decide what is
stored, who is mailed, what the pages send and what they show:

- **Stored documents** (`documents.dfy`). A JSON document is a map from
  field names to strings, numbers and nested objects. Object spread and
  Mongoose's top-level `$set` are modelled as a merge.
- **Schema defaults** (`schemas.dfy`). These are the defaults Mongoose fills
  into a new request, report or user.
- **The collection store** (`store.dfy`).
  - A `Collection` class holds records keyed by ObjectId, each with the
    creation and update times the database keeps.
  - It provides `find` newest first, `findById`, `create`,
    `findByIdAndUpdate` and `findByIdAndDelete`.
  - An id that is not 24 hex digits raises a cast error.
  - A `Mailer` class records each message handed to SendGrid.
- **API routes**:
  - `/api/requests`, the reject route and the promote route (`api.dfy`);
  - the meeting, announcement, holiday and designation routes, with their
    recipient lists and the loops that build them (`memos.dfy`).
- **The request, leave and report lifecycle** (`lifecycle.dfy`).
  - It covers which page offers which action in which status.
  - It covers the payloads each action sends.
  - It shows how the server routes apply them.
- **Account pages** (`accounts.dfy`): the status card, the role selector, the
  avatar check and upload, and the promotion form.
- **Memo and company forms** (`catalog.dfy`): meeting create/edit with an
  optional file, lower-cased names and descriptions, and deletes.
- **Table filter chains and dashboard counts** (`tables.dfy`).
- **The layout's routing guard** (`routing.dfy`).
- **Badges, date and size cells, and file labels** (`presentation.dfy`),
  built on the JavaScript string operations in `text.dfy`.

Calls from the browser are recorded by an `ApiClient` class (`client.dfy`).
The upload host is a function from a picked file to the URL it returns. Wall-clock
stamps are a `now` string parameter. The database clock is an integer
parameter.

## Model

| member | source | states |
|---|---|---|
| Text.ToLower | pages/admin/requests/index.jsx:939-948 | `toLowerCase` keeps the length, lowers each ASCII capital and leaves no capital behind |
| Text.ToLowerIdempotent | pages/admin/requests/index.jsx:939-948 | lower-casing twice is lower-casing once, so searching lower-cased text with a lower-cased needle is consistent |
| Text.ContainsEmpty | pages/admin/requests/index.jsx:943-948 | `includes('')` holds for every string |
| Text.ContainsNeedsFirstChar | layouts/index.jsx:90-103 | a non-empty needle is found only where its first character occurs |
| Text.Without | components/employees/requests.jsx:195-197 | the string with every separator removed has none left and is shorter by their count |
| Text.Split | components/admin/memo/meetings.jsx:686-706 | `split` on one character gives one more part than there are separators |
| Text.SplitNoSeparator | components/admin/memo/meetings.jsx:686-706 | a string without the separator splits into itself alone |
| Text.SplitAppend | components/admin/memo/meetings.jsx:686-706 | splitting at the first separator gives the part before it, then the split of the rest |
| Text.JoinSplit | components/admin/memo/meetings.jsx:674-679 | joining the parts of a split with the same separator restores the string |
| Text.SplitJoin | components/admin/memo/meetings.jsx:674-679 | splitting a join of separator-free parts restores the parts |
| Text.ConcatSplit | components/employees/requests.jsx:195-197 | a split array rendered by React shows the string without its separators |
| Text.NumberOf | components/admin/memo/meetings.jsx:686-692 | `Number` of a digit string is its value, of "" is 0, of anything else NaN |
| Documents.StrField | database/schemas/requests.js:73-76 | a string field reads as its text; a missing or non-string field reads as "" |
| Documents.NestedStr | pages/api/requests/employee/reject.js:13 | `d.outer.inner` reads the inner string of a nested object, "" when there is none |
| Documents.FillValue | database/schemas/requests.js:3-87 | filling nested defaults: the keys are the union; a default fills only a missing path; a given non-object value is kept |
| Documents.FillDefaults | database/schemas/requests.js:3-87 | a new document has every schema path; a left-out path takes its default; a given value is kept |
| Documents.Merge | pages/api/requests/index.js:44-57 | an update sets every key it names and keeps every other key |
| Documents.MergeIdempotent | pages/api/requests/index.js:44-57 | applying the same merge twice is applying it once |
| Documents.Field | layouts/index.jsx:47 | a JavaScript property read is `undefined` exactly when the key is absent |
| Documents.FillDefaultsOfEmpty | database/schemas/requests.js:3-87 | creating an empty document stores exactly the defaults |
| Schemas.NewRequestStatus | database/schemas/requests.js:73-76 | a new request is 'waiting' unless the payload names a status, which then wins |
| Schemas.NewRequestDecisionFields | database/schemas/requests.js:33-72 | a new request's approval, rejection and cancellation fields are empty, with an empty size-0 approval file |
| Schemas.NewRequestFileDefaults | database/schemas/requests.js:19-32 | a file object that gives any of url, name and size keeps each part it gives; each part it leaves out takes its default ("" or 0) |
| Schemas.NewRequestUrlOnlyFile | database/schemas/requests.js:19-32 | a file object that gives only a url, whatever the url, gets an empty name and size 0 |
| Schemas.NewReportStatus | database/schemas/reports.js:33-36 | a new report is 'unread' unless the payload names a status |
| Schemas.NewUserDefaults | database/schemas/users.js:49-78 | a new user is an active 'User' with empty suspension and separation files |
| Schemas.NewUserProfileEmpty | database/schemas/users.js:5-48 | every profile string a new user leaves out is "" |
| Store.CountIdPositive | pages/api/meetings/index.js:14 | an id counted in a listing occurs at some position of it |
| Store.InsertNewest | pages/api/meetings/index.js:14 | inserting into a newest-first listing keeps it newest first, adds one row and keeps every other row |
| Store.Applied | pages/api/requests/index.js:44-57 | an applied update merges the fields, keeps the creation time and moves the update time to the clock |
| Store.Collection.constructor | database/schemas/requests.js:89 | a new collection is empty with the schema's defaults |
| Store.Collection.FindById | pages/api/requests/employee/reject.js:12-13 | a malformed id raises a cast error; a well-formed id finds exactly the stored record or nothing |
| Store.Collection.FindNewestFirst | pages/api/requests/index.js:11 | `find({}).sort({createdAt: -1})` returns every stored record exactly once, newest first |
| Store.Collection.Create | pages/api/requests/index.js:23-31 | `create` stores the filled document under a fresh id with both times set to the clock |
| Store.Collection.FindByIdAndUpdate | pages/api/requests/index.js:44-57 | a malformed id throws and changes nothing; a missing id changes nothing; otherwise only that record is updated |
| Store.Collection.FindByIdAndDelete | pages/api/meetings/index.js:169 | a malformed id throws; otherwise the id is gone and everything else is kept |
| Store.Mailer.Send | pages/api/requests/employee/reject.js:33 | a sent message is appended to the outbox |
| Api.Stamped | pages/api/meetings/index.js:27-35 | `{...data, created: now, updated: now}` keeps the data's other fields and stamps both dates |
| Api.Touched | pages/api/users/promote.js:12-20 | `{...data, updated: now}` keeps the data's other fields and stamps `updated` |
| Api.CancelUpdate | pages/api/requests/index.js:44-57 | the PATCH update always stamps the cancellation date and `updated`, whatever the data says |
| Api.RejectUpdate | pages/api/requests/employee/reject.js:15-24 | the status is 'rejected' unless the data names one; the data's fields win; `updated` is stamped |
| Api.RequestsHandler | pages/api/requests/index.js:4-79 | GET lists newest first; POST creates with stamps; PATCH applies the cancel update and fails only on a malformed id; DELETE changes nothing; other methods fail |
| Api.Reject | pages/api/requests/employee/reject.js:7-38 | a missing request or malformed owner id fails with no change; a missing owner fails after the update without mail; otherwise update and one mail to the owner |
| Api.Promote | pages/api/users/promote.js:7-38 | a malformed or missing id fails with no mail; otherwise the user is merged and mailed at the email read back after the update |
| Api.RejectKeepsCreation | pages/api/requests/employee/reject.js:15-24 | a rejection keeps `created` and the creation time and stamps `updated` |
| Api.RejectFromAnyStatus | pages/api/requests/employee/reject.js:15-24 | the reject route writes 'rejected' whatever the stored status |
| Api.RejectDataStatusWins | pages/api/requests/employee/reject.js:17-18 | a status inside the rejection data overrides 'rejected' |
| Api.PatchAlwaysStampsCancellation | pages/api/requests/index.js:46-52 | every PATCH of a request stamps a cancellation date |
| Api.PromoteMailsUpdatedEmail | pages/api/users/promote.js:12-27 | the promotion mail goes to the email the same call may have set |
| Memos.MeetingAudience | pages/api/meetings/index.js:37-83 | department 'all' addresses everyone; any other value addresses that department |
| Memos.Recipients | pages/api/meetings/index.js:38-46 | the recipient list has at most one entry per user, and one per user for everyone |
| Memos.RecipientsMembers | pages/api/meetings/index.js:59-71 | an email is listed exactly when some addressed user has it |
| Memos.RecipientsEmpty | pages/api/meetings/index.js:73 | the list is empty exactly when no user is addressed |
| Memos.ListingRecipients | pages/api/meetings/index.js:25-82 | over a full listing, the recipients are exactly the addressed stored users' emails |
| Memos.CollectEmails | pages/api/meetings/index.js:38-46 | the push loop over all users builds the everyone list |
| Memos.CollectDepartmentEmails | pages/api/meetings/index.js:59-71 | the filter-and-push loop builds the department list |
| Memos.Notify | pages/api/meetings/index.js:48-57 | one message with the subject goes to exactly the addressed users, in the order of the newest-first user listing, and none when nobody is addressed |
| Memos.MemoHandler | pages/api/meetings/index.js:6-182 | GET, POST with stamps and mail, PATCH that resets both stamps and mails, DELETE by id, failure otherwise |
| Memos.MeetingsHandler | pages/api/meetings/index.js:11-180 | GET lists newest first and changes nothing; POST stores the stamped record and mails "New Meetings"; PATCH with a well-formed id updates and mails "New Updated Meetings"; mail goes to the department or everyone, and only when someone is addressed; DELETE, other methods and a malformed id send no mail, and a malformed id fails |
| Memos.AnnouncementsHandler | pages/api/announcements/index.js:11-128 | as the meetings route, mailing every user "New Announcement" / "New Updated Announcement" when there is a user, and keeping the outbox otherwise |
| Memos.HolidaysHandler | pages/api/holidays/index.js:11-126 | as the meetings route, mailing every user "New Holiday" / "New Updated Holiday" when there is a user, and keeping the outbox otherwise |
| Memos.EveryoneAddressed | pages/api/announcements/index.js:49 | a memo for everyone is mailed exactly when some user exists |
| Memos.DesignationsHandler | pages/api/designations/index.js:9-80 | the same create, merge and delete without mail |
| Memos.EditResetsCreated | pages/api/meetings/index.js:97-108 | editing a memo overwrites `created` with the edit time but keeps the database creation time |
| Client.ApiClient.constructor | pages/admin/requests/index.jsx:202 | a new client has sent nothing |
| Client.ApiClient.Send | pages/admin/requests/index.jsx:202 | each mutation is appended to what was sent |
| Client.FileObject | pages/admin/requests/index.jsx:283-287 | the stored file object has exactly the url, name and size of the upload |
| Lifecycle.Step | pages/admin/requests/index.jsx:759 | an offered action moves to its target status; an action not offered changes nothing |
| Lifecycle.DecidedIsFinal | pages/user/requests/index.jsx:660 | once a request or leave leaves 'waiting', no page action changes its status |
| Lifecycle.FromWaiting | pages/admin/requests/index.jsx:759 | from 'waiting' a request only reaches approved, rejected or cancelled |
| Lifecycle.LeaveOnlyCancels | components/employees/leaves.jsx:391 | the profile's leave tab offers only Cancel, so through it a waiting leave only ever reaches 'cancelled' |
| Lifecycle.SettledReportIsFinal | pages/admin/reports/index.jsx:309-325 | a read report stays read and a cancelled report stays cancelled, whatever the pages do |
| Lifecycle.FromUnread | pages/user/reports/index.jsx:456 | from 'unread' a report only reaches read or cancelled |
| Lifecycle.ApprovePayload | pages/admin/requests/index.jsx:277-290 | the approval names the approver, the date and the uploaded file, and no status |
| Lifecycle.RejectPayload | pages/admin/requests/index.jsx:293-303 | the rejection names who and when, and no status |
| Lifecycle.CancelPayload | pages/user/requests/index.jsx:321-327 | the cancel payload is exactly `status: 'cancelled'` |
| Lifecycle.MarkReadPayload | pages/admin/reports/index.jsx:201-207 | the mark-read payload is exactly `status: 'read'` |
| Lifecycle.NewRequestPayload | pages/user/requests/index.jsx:119-130 | a new request names its owner, type, purpose and file, and no status |
| Lifecycle.NewReportPayload | pages/user/reports/index.jsx:118-129 | a new report names its owner, type, description and file, and no status |
| Lifecycle.SubmittedRequestWaits | pages/user/requests/index.jsx:119-130 | a request filed from the page is stored 'waiting', with both stamps and the page's type and purpose |
| Lifecycle.SubmittedReportUnread | pages/user/reports/index.jsx:118-129 | the body a report form sends names no status, so the stored report is 'unread' |
| Lifecycle.ServerCancelsFromAnyStatus | pages/api/requests/index.js:40-64 | the server cancels a request whatever its stored status and stamps the cancellation date |
| Lifecycle.ServerRejectsFromAnyStatus | pages/api/requests/employee/reject.js:15-24 | the page's rejection yields 'rejected' from any status, with the rejecter and date |
| Lifecycle.MarkReadIdempotent | pages/admin/reports/index.jsx:201-207 | marking read twice is marking read once, and leaves the status 'read' |
| Lifecycle.OnApprove | pages/admin/requests/index.jsx:245-291 | with no file, the error "Please attach file." and nothing sent; otherwise one approval with the uploaded URL |
| Lifecycle.OnReject | pages/admin/requests/index.jsx:293-303 | one update to the reject route with the rejection payload |
| Lifecycle.SubmitRequest | pages/user/requests/index.jsx:87-132 | with no file, the error and nothing sent; otherwise one create with the uploaded URL |
| Lifecycle.SubmitReport | pages/user/reports/index.jsx:86-131 | with no file, the error and nothing sent; otherwise one create with the uploaded URL |
| Lifecycle.CancelClicked | components/employees/leaves.jsx:56-62 | cancel sends `{status:'cancelled'}` to its route only when the button is offered |
| Lifecycle.DownloadClicked | pages/admin/reports/index.jsx:309-325 | a cancelled report's download sends nothing; any other marks it read |
| Accounts.StatusPayload | components/employees/status.jsx:103-137 | active, warning, suspended and restricted send the status with a duration that is set only for suspended; other choices send nothing |
| Accounts.SeparationPayload | components/employees/status.jsx:182-221 | terminated or resigned sends the status, an empty duration and the uploaded file URL |
| Accounts.DeleteFilePayload | components/employees/status.jsx:139-157 | deleting a separation file clears only that file and sends no status |
| Accounts.SaveSendsPayload | components/employees/status.jsx:444-446 | whenever Save is shown for an offered status, submitting sends a payload |
| Accounts.SeparationNeedsUpload | components/employees/status.jsx:444-446 | terminated and resigned never show Save and never go through the form |
| Accounts.SubmitStatus | components/employees/status.jsx:103-137 | the form sends the status payload to `/users`, or nothing |
| Accounts.SeparationEffect | components/employees/status.jsx:163-225 | a separation status with a picked file sends one update with the uploaded URL; otherwise nothing |
| Accounts.DeleteFileClicked | components/employees/status.jsx:139-157 | one update that clears the chosen file |
| Accounts.RoleUpdate | components/employees/role.jsx:36-44 | a role update is sent exactly when the stored role is Admin and the selection differs from it |
| Accounts.RoleSelectorStartsQuiet | components/employees/role.jsx:46-48 | the selector starts at the stored role, so opening it sends nothing |
| Accounts.Selected | components/employees/role.jsx:72-76 | a disabled select keeps the stored value; an enabled one takes the picked value |
| Accounts.NonAdminChangesNothing | components/employees/status.jsx:261-265 | for a session user who is not an Admin, Save stays hidden and no role update is sent, whatever is picked |
| Accounts.OnlyAdminsChangeRole | components/employees/role.jsx:37 | an Employee's or User's role is never changed by the selector |
| Accounts.RoleEffect | components/employees/role.jsx:36-44 | the effect sends `{role}` exactly when a role update is due |
| Accounts.CheckImage | components/employees/avatar.jsx:25-74 | accepted exactly when present, at most 5120×5120 bytes and JPEG or PNG; otherwise the first failing check's message |
| Accounts.SizeReportedBeforeType | components/employees/avatar.jsx:43-71 | an oversized file of the wrong type is reported as too large |
| Accounts.UploadAvatar | components/employees/avatar.jsx:97-121 | an accepted image is uploaded and only its URL is sent |
| Accounts.PickAvatar | components/employees/avatar.jsx:25-121 | a refused file shows its message and sends nothing; an accepted one is uploaded |
| Accounts.PromotionPayload | pages/admin/employees/index.jsx:153-160 | the form's fields with the role forced to 'Employee' |
| Accounts.SubmitPromotion | pages/admin/employees/index.jsx:131-160 | one update to the promote route for the selected user |
| Accounts.PromotedUserIsEmployee | pages/api/users/promote.js:12-20 | a user promoted from the form is an 'Employee' whatever role the form held, keeps `created` and the creation time, and has `updated` stamped |
| Routing.Route | layouts/index.jsx:10-137 | the spinner shows exactly while loading; the sidebar shows unless the user is a plain user; redirects go only to '/', the user dashboard or the admin dashboard |
| Routing.RoleFlags | layouts/index.jsx:13-27 | at most one role flag holds; no session counts as a plain user |
| Routing.CheckpointsComeFirst | layouts/index.jsx:47-87 | suspended, terminated and resigned users see their checkpoint page on every path |
| Routing.RenderedPaths | layouts/index.jsx:89-106 | admins render only on admin paths, employees only on user paths, everyone else only on paths with neither |
| Routing.HomePath | layouts/index.jsx:93 | '/' contains neither 'user' nor 'admin' |
| Routing.UserDashboardPath | layouts/index.jsx:98 | the user dashboard path contains 'user' and not 'admin' |
| Routing.AdminDashboardPath | layouts/index.jsx:103 | the admin dashboard path contains 'admin' and not 'user' |
| Routing.RedirectsSettle | layouts/index.jsx:89-105 | a cleared session reaches a rendered page after at most two redirects |
| Presentation.RequestBadge | pages/admin/requests/index.jsx:358-368 | approved is brand, waiting yellow, rejected and cancelled red, anything else uncoloured |
| Presentation.ReportBadge | pages/admin/reports/index.jsx:259 | read is brand, every other status red |
| Presentation.UserStatusBadge | pages/admin/accounts/index.jsx:71-85 | active brand, warning and suspended yellow, restricted and terminated red, resigned default, others uncoloured |
| Presentation.DotMatchesBadge | components/employees/status.jsx:240-254 | the status dot groups statuses as the badge does |
| Presentation.RoleBadge | pages/admin/accounts/index.jsx:94-101 | Admin yellow, Employee blue, User red, any other role uncoloured |
| Presentation.SizeUnit | components/admin/memo/meetings.jsx:232-245 | B for 1–999, KB for 1000–999999, MB for 10^6–999999999, nothing otherwise |
| Presentation.SizeCaption | pages/admin/requests/index.jsx:402-415 | the caption begins with the locale rendering of the byte count itself, then a space and the unit |
| Presentation.SizeIsNotScaled | components/admin/memo/meetings.jsx:232-245 | for every size, the caption is the rendering of the undivided byte count followed by " B", " KB", " MB" or " " by range |
| Presentation.MonthName | components/admin/memo/holidays.jsx:293 | `months[n-1]` for n in 1..12; any other index renders as nothing |
| Presentation.FormatCreatedStamp | components/admin/memo/meetings.jsx:686-706 | a `M/D/Y, time` stamp shows as month name, day and year |
| Presentation.FormatIsoDateOf | components/employees/leaves.jsx:462-474 | a `Y-M-D` date shows as month name, day and year |
| Presentation.MonthOutOfRange | components/employees/leaves.jsx:464 | month 13, month 0 and an empty month render no name |
| Presentation.ShownDate | components/employees/requests.jsx:195-197 | a cancelled record shows its cancellation date; any other shows its stamp without commas |
| Presentation.PanelsExclusive | pages/admin/requests/index.jsx:453-590 | the approved and rejected panels never show together, and neither shows while waiting or cancelled |
| Presentation.DaysNotComputed | components/employees/leaves.jsx:478-480 | the Days cell shows the stored `days` whatever From and To are |
| Presentation.DownloadLink | pages/admin/reports/index.jsx:309-325 | a report has a download link exactly when not cancelled, and it is the file URL |
| Presentation.FileLabel | components/admin/memo/meetings.jsx:665-681 | the meeting file label shows exactly when the file has a URL |
| Presentation.SupportingFileLabel | components/employees/status.jsx:300-310 | without optional chaining the label is hidden for an empty URL and throws for a URL with fewer than eight segments |
| Presentation.SupportingLabelAgrees | components/employees/status.jsx:300-310 | where the status card shows a label, it is the meeting table's label |
| Presentation.FileLabelOfUpload | components/admin/memo/meetings.jsx:674-679 | for an upload URL the label is segment 6 (the version) and the extension, not the file name |
| Tables.Filter | pages/admin/requests/index.jsx:936-955 | `filter` keeps only passing rows, never adds one |
| Tables.FilterMembers | pages/admin/requests/index.jsx:936-955 | a row survives exactly when it was there and passes |
| Tables.FilterKeepsAll | pages/admin/requests/index.jsx:950-954 | a step every row passes keeps the rows as they are |
| Tables.FilterCommutes | pages/admin/employees/index.jsx:641-671 | two filter steps give the same rows in either order |
| Tables.CountSplits | components/admin/dashboard/statistics.jsx:36-40 | passing and failing rows add up to all rows |
| Tables.EmptySearchKeepsAll | pages/admin/requests/index.jsx:938-949 | an empty search keeps every row |
| Tables.SearchIgnoresCase | pages/admin/requests/index.jsx:938-949 | the search ignores the letter case of what is typed |
| Tables.NoChoiceKeepsAll | pages/admin/requests/index.jsx:950-954 | no selected option keeps every row |
| Tables.ChosenMembers | components/admin/memo/meetings.jsx:765-771 | a select-only table keeps rows whose field is the chosen option, or all rows |
| Tables.AdminRequestsMembers | pages/admin/requests/index.jsx:936-955 | a request is listed exactly when its type or purpose matches and its status is the chosen one |
| Tables.AdminReportsMembers | pages/admin/reports/index.jsx:481-501 | a report is listed exactly when its type or description matches and its status is the chosen one |
| Tables.OwnTableMembers | pages/user/requests/index.jsx:806-811 | an owner's table, over the records the per-user query returns, shows exactly their records with the chosen status |
| Tables.SingleKeySearch | components/admin/company/departments.jsx:292-304 | name and description searches keep exactly the rows whose field matches |
| Tables.EmployeesMembers | pages/admin/employees/index.jsx:641-671 | an employee is listed exactly when the role is Employee, the name or email matches and department, designation and status are the chosen ones |
| Tables.EmployeeStepsCommute | pages/admin/employees/index.jsx:655-666 | the department and designation steps can be swapped |
| Tables.PickerOnlyUsers | pages/admin/employees/index.jsx:86-100 | the add-employee picker offers only plain users |
| Tables.AccountsMembers | pages/admin/accounts/index.jsx:189-213 | an account is listed exactly when its name or email matches and status and role are the chosen ones |
| Tables.Card | components/admin/dashboard/statistics.jsx:36-40 | a card shows 0 until fetched and never more than the rows |
| Tables.AdminDashboard | components/admin/dashboard/statistics.jsx:7-190 | every card is 0 until its data is fetched; then employees count the print roster, pending leaves and requests the 'waiting' rows, unread reports the 'unread' rows |
| Tables.UserDashboard | components/user/dashboard/statistics.jsx:8-120 | every card is 0 until its data is fetched; then each counts the user's own 'waiting' leaves, 'unread' reports and 'waiting' requests |
| Tables.OwnCountWithinAll | components/user/dashboard/statistics.jsx:114-120 | a user's count in one status is the admin's count in that status narrowed to that user, never more |
| Tables.UserCountWithinAdmin | components/user/dashboard/statistics.jsx:114-120 | each of a user's pending-leave, unread-report and pending-request cards is at most the admin's |
| Catalog.MeetingPayload | components/admin/memo/meetings.jsx:97-116 | the four form fields, plus the uploaded file object exactly when one was attached |
| Catalog.SaveMeeting | components/admin/memo/meetings.jsx:82-116 | one create (or update when editing), carrying the uploaded URL when a file was picked |
| Catalog.MeetingEditKeepsFile | components/admin/memo/meetings.jsx:378-384 | editing without a file keeps the meeting's stored file |
| Catalog.MeetingEditReplacesFile | components/admin/memo/meetings.jsx:365-376 | editing with a file replaces the stored file object |
| Catalog.MeetingFormAudience | components/admin/memo/meetings.jsx:97-116 | the form's department decides who is mailed: everyone for 'all', else that department |
| Catalog.NamePayload | components/admin/company/departments.jsx:66-72 | the sent name is the typed name lower-cased character by character |
| Catalog.DescriptionPayload | components/admin/memo/announcements.jsx:67-74 | the sent description is lower-cased and the date is kept |
| Catalog.NameSavedTwice | components/admin/company/departments.jsx:157-163 | saving an already saved name sends it unchanged |
| Catalog.NameIgnoresCase | components/admin/company/designations.jsx:66-72 | names differing only in letter case are stored alike |
| Catalog.SavedNameIsFound | components/admin/company/departments.jsx:292-304 | a saved name is found by searching for it in any letter case |
| Catalog.SavedDescriptionIsFound | components/admin/memo/announcements.jsx:335-346 | a saved description is found by searching for it in any letter case |
| Catalog.SaveName | pages/admin/requests/index.jsx:102-110 | a create (or update when editing) with the lower-cased name |
| Catalog.SaveDescription | components/admin/memo/holidays.jsx:64-71 | a create (or update when editing) with the lower-cased description |
| Catalog.DeleteClicked | components/admin/memo/meetings.jsx:608-610 | a delete sends the row's id to the route |

## Left out

- Uploads to Cloudinary are a function from the picked file to the returned URL. Upload failures and the form data are not modelled.
- SendGrid delivery, the sender address and message bodies are left out. The model records the recipients and subject of each message.
- Mongoose internals are left out: strict-mode stripping of unknown paths, casting non-string ids, and 12-byte string ids. An id is valid exactly when it is 24 hex digits.
- Database errors other than a cast error are left out, and so is the GET error path of every route.
- `toLocaleString` stamps and time zones are left out. The wall-clock stamp is a string parameter `now`, and the database clock is an integer parameter. The locale's number rendering in the size caption is a function parameter `render`.
- React state, toasts, loading flags, query invalidation and modal open/close are left out.
- Concurrency between requests is left out. Each route call is atomic.
- The approve, leave, report, user and avatar API routes are not part of this model. For those actions the lifecycle uses the status the page's payload asks for.
- Lifecycle.Step: the approve target 'approved' is assumed, because the approve route is not part of this model.
- Only the request, report and user schemas are spelled out. The announcement, holiday, department, designation and type schemas have only top-level string fields, which the collection's `defaults` parameter covers. The meeting schema also has a nested `file {url, name, size}` whose `size` is a String.
- Catalog.MeetingEditReplacesFile: the stored meeting `file.size` is the number the form sends. The meeting schema declares `size` a String, so Mongoose would store its decimal text; that cast is not modelled.
- Leave approval and rejection are not modelled. The leave tab of an employee's profile offers only Cancel, and the pages that decide leaves are not part of this model.
- Text.ToLower lowers ASCII letters only, not the rest of Unicode.
- Text.NumberOf handles digit strings only. Exponents, signs, whitespace and hex forms of `Number` are not modelled.
- Tables.KeyMatches reads a missing or non-string field as "". In the source, `data[key].toString()` throws on a missing key, and a number prints in decimal.
- Tables.Own compares the owner id read as "" when the `user` object is missing. In the source that read throws.
- Api.Reject treats a non-string `user.email` like any other string field.
- Accounts.PromotedUserIsEmployee: stated only for a form without a `created` field. The promote route stores whatever `created` the form sends.
- The sidebar, header, hero and dashboard lists are context only.

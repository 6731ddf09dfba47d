/**
 * What the pages show for a record: badge colours, the byte-size caption,
 * dates reshaped from the server's `M/D/YYYY, h:mm:ss AM` stamps and from
 * `YYYY-MM-DD` form dates, and the label of an uploaded file. `months` is
 * the twelve month names the pages index into.
 */
module Presentation {
  import opened Text
  import opened Documents

  /** Request and leave badges; a status outside the four shows no colour. */
  function RequestBadge(status: string): (r: Option<string>)
    ensures r.Some? <==> status in {"approved", "rejected", "waiting", "cancelled"}
    ensures r == Some("brand") <==> status == "approved"
    ensures r == Some("yellow") <==> status == "waiting"
    ensures r == Some("red") <==> status in {"rejected", "cancelled"}
  {
    if status == "approved" then Some("brand")
    else if status == "rejected" then Some("red")
    else if status == "waiting" then Some("yellow")
    else if status == "cancelled" then Some("red")
    else None
  }

  /** Report badges: read is brand, every other status red. */
  function ReportBadge(status: string): (r: string)
    ensures r == "brand" <==> status == "read"
    ensures r == "red" <==> status != "read"
  {
    if status == "read" then "brand" else "red"
  }

  /** Account status badges; an unknown status shows no colour. */
  function UserStatusBadge(status: string): (r: Option<string>)
    ensures r.Some? <==> status in {"active", "warning", "suspended", "restricted", "terminated", "resigned"}
    ensures r == Some("brand") <==> status == "active"
    ensures r == Some("yellow") <==> status in {"warning", "suspended"}
    ensures r == Some("red") <==> status in {"restricted", "terminated"}
    ensures r == Some("default") <==> status == "resigned"
  {
    if status == "active" then Some("brand")
    else if status == "warning" then Some("yellow")
    else if status == "suspended" then Some("yellow")
    else if status == "restricted" then Some("red")
    else if status == "terminated" then Some("red")
    else if status == "resigned" then Some("default")
    else None
  }

  /** The status dot beside the status select. */
  function UserStatusDot(status: string): Option<string>
  {
    if status == "active" then Some("brand.default")
    else if status == "warning" then Some("yellow.default")
    else if status == "suspended" then Some("yellow.default")
    else if status == "restricted" then Some("red.default")
    else if status == "terminated" then Some("red.default")
    else if status == "resigned" then Some("accent-5")
    else None
  }

  /** The dot and the badge group statuses the same way; only resigned's token differs in form. */
  lemma DotMatchesBadge(status: string)
    ensures UserStatusDot(status).Some? <==> UserStatusBadge(status).Some?
    ensures UserStatusBadge(status).Some? && status != "resigned" ==>
      UserStatusDot(status) == Some(UserStatusBadge(status).value + ".default")
  {
    assert "brand" + ".default" == "brand.default";
    assert "yellow" + ".default" == "yellow.default";
    assert "red" + ".default" == "red.default";
  }

  /** Role badges and the role dot's colour family. */
  function RoleBadge(role: string): (r: Option<string>)
    ensures r.Some? <==> role in {"Admin", "Employee", "User"}
    ensures r == Some("yellow") <==> role == "Admin"
    ensures r == Some("blue") <==> role == "Employee"
    ensures r == Some("red") <==> role == "User"
  {
    if role == "Admin" then Some("yellow")
    else if role == "Employee" then Some("blue")
    else if role == "User" then Some("red")
    else None
  }

  /** The unit after a file size: B, KB or MB by range, nothing at 0 or from 10^9. */
  function SizeUnit(size: int): (r: string)
    ensures r == "B" <==> 1 <= size <= 999
    ensures r == "KB" <==> 1000 <= size <= 999999
    ensures r == "MB" <==> 1000000 <= size <= 999999999
    ensures r == "" <==> size < 1 || size > 999999999
  {
    if 1 <= size <= 999 then "B"
    else if 1000 <= size <= 999999 then "KB"
    else if 1000000 <= size <= 999999999 then "MB"
    else ""
  }

  /**
   * The size caption, `size.toLocaleString(...) + ' '` followed by the unit.
   * The locale's number rendering is the parameter `render`: the caption
   * begins with `render` applied to the byte count itself.
   */
  function SizeCaption(render: int -> string, size: int): (r: string)
    ensures |r| == |render(size)| + 1 + |SizeUnit(size)|
    ensures r[..|render(size)|] == render(size)
  {
    render(size) + " " + SizeUnit(size)
  }

  /**
   * The count is never divided: whatever the range, the number shown is the
   * byte count as rendered, so 1500 bytes read "1,500 KB" and not "1.5 KB".
   */
  lemma SizeIsNotScaled(render: int -> string, size: int)
    ensures 1 <= size <= 999 ==> SizeCaption(render, size) == render(size) + " B"
    ensures 1000 <= size <= 999999 ==> SizeCaption(render, size) == render(size) + " KB"
    ensures 1000000 <= size <= 999999999 ==> SizeCaption(render, size) == render(size) + " MB"
    ensures size < 1 || size > 999999999 ==> SizeCaption(render, size) == render(size) + " "
  {
  }

  /** `months[n - 1]` for a numeric string; anything else (undefined) renders as nothing. */
  function MonthName(months: seq<string>, s: string): (r: string)
    requires |months| == 12
    ensures IsDigits(s) && 1 <= Val(s) <= 12 ==> r == months[Val(s) - 1]
    ensures !(IsDigits(s) && 1 <= Val(s) <= 12) ==> r == ""
  {
    var n := NumberOf(s);
    if 1 <= n <= 12 then months[n - 1] else ""
  }

  /** The Created and Joined cells: `months[M-1] + ' ' + D + ', ' + Y` from `M/D/Y, time`. */
  function FormatCreated(months: seq<string>, created: string): string
    requires |months| == 12
  {
    var parts := Split(Part(Split(created, ','), 0), '/');
    MonthName(months, Part(parts, 0)) + " " + Part(parts, 1) + ", " + Part(parts, 2)
  }

  /** The leave From/To and memo date cells: `months[MM-1] + ' ' + DD + ', ' + YYYY` from `YYYY-MM-DD`. */
  function FormatIsoDate(months: seq<string>, date: string): string
    requires |months| == 12
  {
    var parts := Split(date, '-');
    MonthName(months, Part(parts, 1)) + " " + Part(parts, 2) + ", " + Part(parts, 0)
  }

  /** A server stamp `M/D/Y, rest` is shown as month name, day and year. */
  lemma {:induction false} FormatCreatedStamp(months: seq<string>, m: string, d: string, y: string, rest: string)
    requires |months| == 12
    requires ',' !in m + d + y && '/' !in m + d + y
    requires IsDigits(m) && 1 <= Val(m) <= 12
    ensures FormatCreated(months, m + "/" + d + "/" + y + "," + rest) == months[Val(m) - 1] + " " + d + ", " + y
  {
    var date := m + "/" + d + "/" + y;
    assert ',' !in date by {
      assert date == m + ['/'] + d + ['/'] + y;
    }
    assert m + "/" + d + "/" + y + "," + rest == date + [','] + rest;
    SplitAppend(date, ',', rest);
    assert Part(Split(date + [','] + rest, ','), 0) == date;
    assert date == m + ['/'] + (d + ['/'] + y);
    assert m + ['/'] + (d + ['/'] + y) == m + ['/'] + (d + "/" + y);
    SplitAppend(m, '/', d + "/" + y);
    assert d + "/" + y == d + ['/'] + y;
    SplitAppend(d, '/', y);
    SplitNoSeparator(y, '/');
  }

  /** A form date `Y-M-D` is shown as month name, day and year. */
  lemma {:induction false} FormatIsoDateOf(months: seq<string>, y: string, m: string, d: string)
    requires |months| == 12
    requires '-' !in y + m + d
    requires IsDigits(m) && 1 <= Val(m) <= 12
    ensures FormatIsoDate(months, y + "-" + m + "-" + d) == months[Val(m) - 1] + " " + d + ", " + y
  {
    assert y + "-" + m + "-" + d == y + ['-'] + (m + ['-'] + d);
    SplitAppend(y, '-', m + ['-'] + d);
    SplitAppend(m, '-', d);
    SplitNoSeparator(d, '-');
  }

  /** A month outside 1..12 renders as an empty name; day and year still show. */
  lemma MonthOutOfRange(months: seq<string>)
    requires |months| == 12
    ensures MonthName(months, "13") == "" && MonthName(months, "0") == "" && MonthName(months, "") == ""
  {
    assert IsDigits("13") && Val("13") == 13;
    assert IsDigits("0") && Val("0") == 0;
  }

  /**
   * The date beside a request or leave: the cancellation date of a
   * cancelled record, otherwise `created.split(',')` rendered as an array,
   * which shows the stamp with its commas dropped.
   */
  function ShownDate(record: Doc): (r: string)
    ensures StatusOf(record) == "cancelled" ==> r == NestedStr(record, "cancelled", "date")
    ensures StatusOf(record) != "cancelled" ==> r == Without(StrField(record, "created"), ',')
  {
    if StatusOf(record) != "cancelled" then
      ConcatSplit(StrField(record, "created"), ',');
      Concat(Split(StrField(record, "created"), ','))
    else NestedStr(record, "cancelled", "date")
  }

  /** The approved panel shows only for approved requests, the rejected panel only for rejected ones. */
  predicate ApprovedPanel(status: string)
  {
    status == "approved"
  }

  predicate RejectedPanel(status: string)
  {
    status == "rejected"
  }

  lemma PanelsExclusive(status: string)
    ensures !(ApprovedPanel(status) && RejectedPanel(status))
    ensures status == "waiting" || status == "cancelled" ==> !ApprovedPanel(status) && !RejectedPanel(status)
  {
  }

  /** A leave's Days cell is the stored `days`, whatever From and To say. */
  function DaysCell(leave: Doc): Option<Value>
  {
    Field(leave, "days")
  }

  lemma DaysNotComputed(leave: Doc, from: Value, to: Value)
    ensures DaysCell(leave["from" := from]["to" := to]) == DaysCell(leave)
  {
  }

  /** The download control of a report: no link on a cancelled one. */
  function DownloadLink(report: Doc): (r: Option<string>)
    ensures r.None? <==> StatusOf(report) == "cancelled"
    ensures r.Some? ==> r.value == NestedStr(report, "file", "url")
  {
    if StatusOf(report) == "cancelled" then None else Some(NestedStr(report, "file", "url"))
  }

  /**
   * A meeting's file label, shown only when the file has a URL: path segment
   * 6, a dot, then what follows the first dot of segment 7 (missing parts
   * render as nothing).
   */
  function FileLabel(url: string): (r: Option<string>)
    ensures r.None? <==> url == ""
  {
    if url == "" then None
    else
      var segments := Split(url, '/');
      Some(Part(segments, 6) + "." + Part(Split(Part(segments, 7), '.'), 1))
  }

  /** What a label slot shows: nothing, a text, or an error thrown while rendering. */
  datatype LabelView = Hidden | Shown(text: string) | Throws

  /**
   * The supporting-file label on the status card: the same expression
   * without optional chaining, so a non-empty URL with fewer than eight
   * segments makes the render throw.
   */
  function SupportingFileLabel(url: string): (r: LabelView)
    ensures r.Hidden? <==> url == ""
    ensures r.Throws? <==> url != "" && |Split(url, '/')| < 8
  {
    if url == "" then Hidden
    else
      var segments := Split(url, '/');
      if |segments| < 8 then Throws
      else Shown(segments[6] + "." + Part(Split(segments[7], '.'), 1))
  }

  /** Where the status card renders a label, it is the meeting table's label. */
  lemma SupportingLabelAgrees(url: string)
    requires SupportingFileLabel(url).Shown?
    ensures FileLabel(url) == Some(SupportingFileLabel(url).text)
  {
  }

  /**
   * For a URL whose `/`-separated segments are seven segments and then
   * `NAME.EXT`, the label is segment 6 and the extension. On an upload URL
   * `https://res.cloudinary.com/ACCOUNT/raw/upload/vVERSION/NAME.EXT` segment 6
   * is the version, so the label is `vVERSION.EXT`, not the file's name.
   */
  lemma {:induction false} FileLabelOfUpload(segments: seq<string>, name: string, ext: string)
    requires |segments| == 7 && forall i :: 0 <= i < 7 ==> '/' !in segments[i]
    requires '/' !in name + ext && '.' !in name + ext
    ensures FileLabel(Join(segments + [name + "." + ext], "/")) == Some(segments[6] + "." + ext)
  {
    var file := name + "." + ext;
    var parts := segments + [file];
    assert forall i :: 0 <= i < |parts| ==> '/' !in parts[i] by {
      assert forall i :: 0 <= i < 7 ==> parts[i] == segments[i];
      assert parts[7] == file && '/' !in file;
    }
    SplitJoin(parts, '/');
    assert Join(parts, "/") != "" by {
      assert Split("", '/') == [""];
    }
    assert file == name + ['.'] + ext;
    SplitAppend(name, '.', ext);
    SplitNoSeparator(ext, '.');
  }
}

/**
 * The table filter chains and dashboard counts. A page's table hands its
 * rows, the search text and the selected options to a `filters` function
 * made of `Array.filter` steps; a dashboard card shows the length of one
 * filter, or 0 until its query has been fetched.
 */
module Tables {
  import opened Text
  import opened Documents

  /** `rows.filter(keep)`. */
  function Filter(rows: seq<Doc>, keep: Doc -> bool): (r: seq<Doc>)
    ensures |r| <= |rows|
    ensures forall x :: x in r ==> x in rows && keep(x)
  {
    if rows == [] then []
    else (if keep(rows[0]) then [rows[0]] else []) + Filter(rows[1..], keep)
  }

  /** A row survives a filter exactly when it was there and passes. */
  lemma {:induction false} FilterMembers(rows: seq<Doc>, keep: Doc -> bool, x: Doc)
    ensures x in Filter(rows, keep) <==> x in rows && keep(x)
  {
    if rows != [] {
      FilterMembers(rows[1..], keep, x);
      assert rows == [rows[0]] + rows[1..];
    }
  }

  /** A filter every row passes keeps the rows as they are. */
  lemma {:induction false} FilterKeepsAll(rows: seq<Doc>, keep: Doc -> bool)
    requires forall i :: 0 <= i < |rows| ==> keep(rows[i])
    ensures Filter(rows, keep) == rows
  {
    if rows != [] {
      FilterKeepsAll(rows[1..], keep);
      assert [rows[0]] + rows[1..] == rows;
    }
  }

  /** Two filter steps can be applied in either order, with the same rows in the same order. */
  lemma {:induction false} FilterCommutes(rows: seq<Doc>, p: Doc -> bool, q: Doc -> bool)
    ensures Filter(Filter(rows, p), q) == Filter(Filter(rows, q), p)
  {
    if rows != [] {
      FilterCommutes(rows[1..], p, q);
      var x := rows[0];
      FilterHead(rows, p);
      FilterHead(rows, q);
      if p(x) {
        FilterHead(Filter(rows, p), q);
        assert Filter(rows, p)[1..] == Filter(rows[1..], p);
      }
      if q(x) {
        FilterHead(Filter(rows, q), p);
        assert Filter(rows, q)[1..] == Filter(rows[1..], q);
      }
    }
  }

  /** One unfolding of Filter, stated for a non-empty sequence. */
  lemma FilterHead(rows: seq<Doc>, keep: Doc -> bool)
    requires rows != []
    ensures keep(rows[0]) ==> Filter(rows, keep) == [rows[0]] + Filter(rows[1..], keep)
    ensures !keep(rows[0]) ==> Filter(rows, keep) == Filter(rows[1..], keep)
  {
  }

  /** How many rows pass: `rows.filter(keep).length`. */
  function Count(rows: seq<Doc>, keep: Doc -> bool): nat
  {
    |Filter(rows, keep)|
  }

  /** The rows that pass and the rows that do not make up all the rows. */
  lemma {:induction false} CountSplits(rows: seq<Doc>, keep: Doc -> bool)
    ensures Count(rows, keep) + Count(rows, x => !keep(x)) == |rows|
  {
    if rows != [] {
      CountSplits(rows[1..], keep);
    }
  }

  /** `data[key].toString().toLowerCase().includes(search && search.toLowerCase())` for one key. */
  predicate KeyMatches(row: Doc, key: string, search: string)
  {
    Contains(ToLower(StrField(row, key)), ToLower(search))
  }

  /** `keys.some(key => …)`. */
  predicate AnyKeyMatches(row: Doc, keys: seq<string>, search: string)
  {
    exists i | 0 <= i < |keys| :: KeyMatches(row, keys[i], search)
  }

  /** The search step of a table over these keys. */
  function Search(keys: seq<string>, search: string): Doc -> bool
  {
    row => AnyKeyMatches(row, keys, search)
  }

  /** `watch(key) ? watch(key) === data[key] : data`: nothing selected keeps every row. */
  function Exact(key: string, chosen: string): Doc -> bool
  {
    row => chosen == "" || Field(row, key) == Some(Str(chosen))
  }

  /** An empty search keeps every row that has the keys: `includes('')` always holds. */
  lemma EmptySearchKeepsAll(rows: seq<Doc>, keys: seq<string>)
    requires |keys| > 0
    ensures Filter(rows, Search(keys, "")) == rows
  {
    forall i | 0 <= i < |rows|
      ensures Search(keys, "")(rows[i])
    {
      ContainsEmpty(ToLower(StrField(rows[i], keys[0])));
      assert KeyMatches(rows[i], keys[0], "");
    }
    FilterKeepsAll(rows, Search(keys, ""));
  }

  /** Search ignores letter case on both sides. */
  lemma SearchIgnoresCase(row: Doc, keys: seq<string>, search: string)
    ensures Search(keys, search)(row) <==> Search(keys, ToLower(search))(row)
  {
    ToLowerIdempotent(search);
  }

  /** No option selected keeps every row. */
  lemma NoChoiceKeepsAll(rows: seq<Doc>, key: string)
    ensures Filter(rows, Exact(key, "")) == rows
  {
    FilterKeepsAll(rows, Exact(key, ""));
  }

  /** A select-only table keeps the rows whose field is the chosen option, or every row. */
  lemma ChosenMembers(rows: seq<Doc>, key: string, chosen: string, x: Doc)
    ensures x in Filter(rows, Exact(key, chosen)) <==>
      x in rows && (chosen == "" || Field(x, key) == Some(Str(chosen)))
  {
    FilterMembers(rows, Exact(key, chosen), x);
  }

  /** The admin request table: type or purpose matches the search, then the chosen status. */
  function AdminRequests(rows: seq<Doc>, search: string, status: string): seq<Doc>
  {
    Filter(Filter(rows, Search(["type", "purpose"], search)), Exact("status", status))
  }

  lemma AdminRequestsMembers(rows: seq<Doc>, search: string, status: string, x: Doc)
    ensures x in AdminRequests(rows, search, status) <==>
      && x in rows
      && (KeyMatches(x, "type", search) || KeyMatches(x, "purpose", search))
      && (status == "" || Field(x, "status") == Some(Str(status)))
  {
    FilterMembers(rows, Search(["type", "purpose"], search), x);
    FilterMembers(Filter(rows, Search(["type", "purpose"], search)), Exact("status", status), x);
    assert Search(["type", "purpose"], search)(x) <==> KeyMatches(x, "type", search) || KeyMatches(x, "purpose", search) by {
      assert ["type", "purpose"][0] == "type" && ["type", "purpose"][1] == "purpose";
    }
  }

  /** The admin report table: type or description matches the search, then the chosen status. */
  function AdminReports(rows: seq<Doc>, search: string, status: string): seq<Doc>
  {
    Filter(Filter(rows, Search(["type", "description"], search)), Exact("status", status))
  }

  lemma AdminReportsMembers(rows: seq<Doc>, search: string, status: string, x: Doc)
    ensures x in AdminReports(rows, search, status) <==>
      && x in rows
      && (KeyMatches(x, "type", search) || KeyMatches(x, "description", search))
      && (status == "" || Field(x, "status") == Some(Str(status)))
  {
    FilterMembers(rows, Search(["type", "description"], search), x);
    FilterMembers(Filter(rows, Search(["type", "description"], search)), Exact("status", status), x);
    assert Search(["type", "description"], search)(x) <==> KeyMatches(x, "type", search) || KeyMatches(x, "description", search) by {
      assert ["type", "description"][0] == "type" && ["type", "description"][1] == "description";
    }
  }

  /** The owner's request, leave and report tables, and the employee profile tabs: status only. */
  function ByStatus(rows: seq<Doc>, status: string): seq<Doc>
  {
    Filter(rows, Exact("status", status))
  }

  /** The records of one user, as the `/requests/employee/[id]` style queries return them. */
  function Own(rows: seq<Doc>, userId: string): seq<Doc>
  {
    Filter(rows, row => NestedStr(row, "user", "id") == userId)
  }

  /** An owner's table shows their own records with the chosen status, and nothing else. */
  lemma OwnTableMembers(rows: seq<Doc>, userId: string, status: string, x: Doc)
    ensures x in ByStatus(Own(rows, userId), status) <==>
      x in rows && NestedStr(x, "user", "id") == userId && (status == "" || StatusOf(x) == status)
  {
    FilterMembers(rows, row => NestedStr(row, "user", "id") == userId, x);
    FilterMembers(Own(rows, userId), Exact("status", status), x);
  }

  /** The meetings table: the chosen department, or every meeting. */
  function MeetingsByDepartment(rows: seq<Doc>, department: string): seq<Doc>
  {
    Filter(rows, Exact("department", department))
  }

  /** Announcements and holidays search their description. */
  function ByDescription(rows: seq<Doc>, search: string): seq<Doc>
  {
    Filter(rows, Search(["description"], search))
  }

  /** Departments and designations search their name. */
  function ByName(rows: seq<Doc>, search: string): seq<Doc>
  {
    Filter(rows, Search(["name"], search))
  }

  lemma SingleKeySearch(rows: seq<Doc>, key: string, search: string, x: Doc)
    ensures x in Filter(rows, Search([key], search)) <==> x in rows && KeyMatches(x, key, search)
  {
    FilterMembers(rows, Search([key], search), x);
    assert [key][0] == key;
  }

  /** Role is 'Employee'. */
  function IsEmployeeRow(): Doc -> bool
  {
    row => Field(row, "role") == Some(Str("Employee"))
  }

  /** The employee table: employees, then name/email search, then department, designation and status. */
  function Employees(rows: seq<Doc>, search: string, department: string, designation: string, status: string): seq<Doc>
  {
    var employees := Filter(rows, IsEmployeeRow());
    var found := Filter(employees, Search(["name", "email"], search));
    Filter(Filter(Filter(found, Exact("department", department)), Exact("designation", designation)), Exact("status", status))
  }

  lemma EmployeesMembers(rows: seq<Doc>, search: string, department: string, designation: string, status: string, x: Doc)
    ensures x in Employees(rows, search, department, designation, status) <==>
      && x in rows && Field(x, "role") == Some(Str("Employee"))
      && (KeyMatches(x, "name", search) || KeyMatches(x, "email", search))
      && (department == "" || Field(x, "department") == Some(Str(department)))
      && (designation == "" || Field(x, "designation") == Some(Str(designation)))
      && (status == "" || Field(x, "status") == Some(Str(status)))
  {
    var employees := Filter(rows, IsEmployeeRow());
    var found := Filter(employees, Search(["name", "email"], search));
    var byDepartment := Filter(found, Exact("department", department));
    var byDesignation := Filter(byDepartment, Exact("designation", designation));
    FilterMembers(rows, IsEmployeeRow(), x);
    FilterMembers(employees, Search(["name", "email"], search), x);
    FilterMembers(found, Exact("department", department), x);
    FilterMembers(byDepartment, Exact("designation", designation), x);
    FilterMembers(byDesignation, Exact("status", status), x);
    assert ["name", "email"][0] == "name" && ["name", "email"][1] == "email";
  }

  /** The department and designation steps can be swapped without changing the table. */
  lemma EmployeeStepsCommute(rows: seq<Doc>, department: string, designation: string)
    ensures Filter(Filter(rows, Exact("department", department)), Exact("designation", designation))
         == Filter(Filter(rows, Exact("designation", designation)), Exact("department", department))
  {
    FilterCommutes(rows, Exact("department", department), Exact("designation", designation));
  }

  /** The add-employee picker: name/email search over plain users. */
  function UserPicker(rows: seq<Doc>, search: string): seq<Doc>
  {
    Filter(Filter(rows, Search(["name", "email"], search)), row => Field(row, "role") == Some(Str("User")))
  }

  /** The picker never offers an employee or admin. */
  lemma PickerOnlyUsers(rows: seq<Doc>, search: string, x: Doc)
    requires x in UserPicker(rows, search)
    ensures StrField(x, "role") == "User"
  {
  }

  /** The print view: employees only. */
  function PrintList(rows: seq<Doc>): seq<Doc>
  {
    Filter(rows, IsEmployeeRow())
  }

  /** The accounts table: name/email search, then status, then role. */
  function Accounts(rows: seq<Doc>, search: string, status: string, role: string): seq<Doc>
  {
    Filter(Filter(Filter(rows, Search(["name", "email"], search)), Exact("status", status)), Exact("role", role))
  }

  lemma AccountsMembers(rows: seq<Doc>, search: string, status: string, role: string, x: Doc)
    ensures x in Accounts(rows, search, status, role) <==>
      && x in rows
      && (KeyMatches(x, "name", search) || KeyMatches(x, "email", search))
      && (status == "" || Field(x, "status") == Some(Str(status)))
      && (role == "" || Field(x, "role") == Some(Str(role)))
  {
    var found := Filter(rows, Search(["name", "email"], search));
    FilterMembers(rows, Search(["name", "email"], search), x);
    FilterMembers(found, Exact("status", status), x);
    FilterMembers(Filter(found, Exact("status", status)), Exact("role", role), x);
    assert ["name", "email"][0] == "name" && ["name", "email"][1] == "email";
  }

  /** A dashboard card: the count once fetched, 0 before. */
  function Card(fetched: bool, rows: seq<Doc>, keep: Doc -> bool): (r: nat)
    ensures !fetched ==> r == 0
    ensures r <= |rows|
  {
    if fetched then Count(rows, keep) else 0
  }

  /** The admin dashboard: employees, pending leaves, unread reports, pending requests. */
  datatype AdminStats = AdminStats(employees: nat, pendingLeaves: nat, unreadReports: nat, pendingRequests: nat)

  function AdminDashboard(users: Option<seq<Doc>>, leaves: Option<seq<Doc>>, reports: Option<seq<Doc>>,
                          requests: Option<seq<Doc>>): (r: AdminStats)
    ensures users.None? ==> r.employees == 0
    ensures users.Some? ==> r.employees == |PrintList(users.value)|
    ensures leaves.None? ==> r.pendingLeaves == 0
    ensures leaves.Some? ==> r.pendingLeaves == |ByStatus(leaves.value, "waiting")|
    ensures reports.None? ==> r.unreadReports == 0
    ensures reports.Some? ==> r.unreadReports == |ByStatus(reports.value, "unread")|
    ensures requests.None? ==> r.pendingRequests == 0
    ensures requests.Some? ==> r.pendingRequests == |ByStatus(requests.value, "waiting")|
  {
    AdminStats(
      Card(users.Some?, if users.Some? then users.value else [], IsEmployeeRow()),
      Card(leaves.Some?, if leaves.Some? then leaves.value else [], Exact("status", "waiting")),
      Card(reports.Some?, if reports.Some? then reports.value else [], Exact("status", "unread")),
      Card(requests.Some?, if requests.Some? then requests.value else [], Exact("status", "waiting")))
  }

  /** The user dashboard: the same counts over the signed-in user's own records. */
  datatype UserStats = UserStats(pendingLeaves: nat, unreadReports: nat, pendingRequests: nat)

  function UserDashboard(userId: string, leaves: Option<seq<Doc>>, reports: Option<seq<Doc>>,
                         requests: Option<seq<Doc>>): (r: UserStats)
    ensures leaves.None? ==> r.pendingLeaves == 0
    ensures leaves.Some? ==> r.pendingLeaves == |ByStatus(Own(leaves.value, userId), "waiting")|
    ensures reports.None? ==> r.unreadReports == 0
    ensures reports.Some? ==> r.unreadReports == |ByStatus(Own(reports.value, userId), "unread")|
    ensures requests.None? ==> r.pendingRequests == 0
    ensures requests.Some? ==> r.pendingRequests == |ByStatus(Own(requests.value, userId), "waiting")|
  {
    UserStats(
      Card(leaves.Some?, if leaves.Some? then Own(leaves.value, userId) else [], Exact("status", "waiting")),
      Card(reports.Some?, if reports.Some? then Own(reports.value, userId) else [], Exact("status", "unread")),
      Card(requests.Some?, if requests.Some? then Own(requests.value, userId) else [], Exact("status", "waiting")))
  }

  /**
   * A user's count of records in one status is the admin's count narrowed
   * to that user: never more than the admin sees.
   */
  lemma OwnCountWithinAll(userId: string, rows: seq<Doc>, status: string)
    ensures |ByStatus(Own(rows, userId), status)|
         == |Filter(ByStatus(rows, status), row => NestedStr(row, "user", "id") == userId)|
    ensures |ByStatus(Own(rows, userId), status)| <= |ByStatus(rows, status)|
  {
    FilterCommutes(rows, row => NestedStr(row, "user", "id") == userId, Exact("status", status));
  }

  /** Every card of a user's dashboard is at most the same card of the admin's. */
  lemma UserCountWithinAdmin(userId: string, leaves: Option<seq<Doc>>, reports: Option<seq<Doc>>,
                             requests: Option<seq<Doc>>)
    ensures var u := UserDashboard(userId, leaves, reports, requests);
      var a := AdminDashboard(None, leaves, reports, requests);
      && u.pendingLeaves <= a.pendingLeaves
      && u.unreadReports <= a.unreadReports
      && u.pendingRequests <= a.pendingRequests
  {
    if leaves.Some? { OwnCountWithinAll(userId, leaves.value, "waiting"); }
    if reports.Some? { OwnCountWithinAll(userId, reports.value, "unread"); }
    if requests.Some? { OwnCountWithinAll(userId, requests.value, "waiting"); }
  }
}

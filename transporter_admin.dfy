/**
 * The user list of the transporter admin's dashboard
 * (frontend/src/pages/dashboards/transporter/AdminDashboard.jsx): the sample
 * users, the search over them and their pages of eight.
 */
module TransporterAdmin {
  import opened JsStrings
  import opened ListView

  datatype User = User(id: string, name: string, email: string, role: string, status: string, lastLogin: string)

  const PerPage: nat := 8

  const Names := ["Asha Patel", "Ravi Kumar", "Maya Singh", "Karthik R"]
  const UserRoles := ["admin", "owner", "logistics", "driver"]

  /** The status rule of the samples: every fifth user, from the first, is suspended. */
  function SampleStatus(i: nat): (s: string)
    ensures s == "Suspended" <==> i % 5 == 0
    ensures s == "Active" <==> i % 5 != 0
  {
    if i % 5 == 0 then "Suspended" else "Active"
  }

  function SampleUser(i: nat): (u: User)
    ensures u.role == UserRoles[i % 4] && u.name == Names[i % 4]
    ensures u.status == SampleStatus(i)
  {
    User("U-" + NatToString(1000 + i), Names[i % 4], "user" + NatToString(i + 1) + "@example.com",
         UserRoles[i % 4], SampleStatus(i), "2025-11-" + NatToString(i % 28 + 1))
  }

  /** `SAMPLE_USERS`: 23 users, the i-th built by `SampleUser(i)`. */
  function SampleUsers(): (us: seq<User>)
    ensures |us| == 23 && forall i | 0 <= i < 23 :: us[i] == SampleUser(i)
  {
    seq(23, i requires 0 <= i < 23 => SampleUser(i))
  }

  function UserFields(u: User): seq<string> {
    [u.id, u.name, u.email, u.role]
  }

  /** `usersFiltered`: the users whose id, name, e-mail or role contains the query. */
  function UsersFiltered(query: string): (r: seq<User>)
    ensures Query(query) == "" ==> r == SampleUsers()
    ensures forall u :: u in r <==> u in SampleUsers() && (Query(query) == "" || FieldsMatch(UserFields(u), Query(query)))
  {
    Search(SampleUsers(), query, UserFields)
  }

  /** `totalPages` of the user list. */
  function UserPages(query: string): (t: nat)
    ensures t >= 1 && |UsersFiltered(query)| <= t * PerPage
    ensures t == 1 || (t - 1) * PerPage < |UsersFiltered(query)|
  {
    TotalPages(|UsersFiltered(query)|, PerPage)
  }

  /** `pagedUsers`: the users of the current page, at most eight. */
  function PagedUsers(query: string, page: int): (r: seq<User>)
    ensures page >= 1 ==> |r| <= PerPage
    ensures page > UserPages(query) ==> r == []
  {
    Page(UsersFiltered(query), page, PerPage)
  }

  /** With an empty search the 23 users fill three pages, the last holding seven. */
  lemma BlankQueryPages()
    ensures UserPages("") == 3
    ensures |PagedUsers("", 1)| == 8 && |PagedUsers("", 3)| == 7
  {
    assert AllSpace("");
    var us := UsersFiltered("");
    assert |us| == 23;
    PagesOfTwentyThree(us);
  }

  lemma PagesOfTwentyThree(us: seq<User>)
    requires |us| == 23
    ensures TotalPages(|us|, PerPage) == 3
    ensures |Page(us, 1, PerPage)| == 8 && |Page(us, 3, PerPage)| == 7
  {
    assert |JsSlice(us, 0, 8)| == 8;
    assert |JsSlice(us, 16, 24)| == 7;
  }

  /** The sample roles cycle through admin, owner, logistics and driver. */
  lemma SampleRolesCycle(i: nat)
    requires i + 4 < |SampleUsers()|
    ensures SampleUsers()[i].role == SampleUsers()[i + 4].role
  {
    assert SampleUsers()[i].role == UserRoles[i % 4];
    assert SampleUsers()[i + 4].role == UserRoles[(i + 4) % 4];
    assert (i + 4) % 4 == i % 4;
  }
}

/**
 * `listAllUsers()`: the superadmin's paginated walk over the identity
 * provider's user directory.
 */
module UserActions {
  import opened Base
  import opened AuthTypes
  import opened SuperadminGate

  const PER_PAGE: nat := 100

  /** A user as the provider's `listUsers` page returns it. */
  datatype DirectoryUser = DirectoryUser(
    id: string,
    email: Option<string>,
    metadata: Option<Metadata>,
    createdAt: Option<string>,
    lastSignInAt: Option<string>)

  /** `AuthUserRow`, the shape handed back to the users page. */
  datatype AuthUserRow = AuthUserRow(
    id: string,
    email: Option<string>,
    userMetadata: Option<Metadata>,
    createdAt: string,
    lastSignInAt: Option<string>)

  /** One `listUsers({ page, perPage })` call: an error, or a page of users and the provider's `nextPage`. */
  datatype PageResult = PageError(message: string) | PageData(users: seq<DirectoryUser>, nextPage: Option<int>)

  /** The row pushed for one user: absent fields become `null`, except `created_at`, which becomes `""`. */
  function ToRow(u: DirectoryUser): (row: AuthUserRow)
    ensures row.id == u.id && row.email == u.email && row.userMetadata == u.metadata
    ensures row.lastSignInAt == u.lastSignInAt
    ensures u.createdAt.None? ==> row.createdAt == ""
    ensures u.createdAt.Some? ==> row.createdAt == u.createdAt.value
  {
    AuthUserRow(u.id, u.email, u.metadata, u.createdAt.GetOr(""), u.lastSignInAt)
  }

  /** The rows pushed for one page, in page order. */
  function Rows(us: seq<DirectoryUser>): (rs: seq<AuthUserRow>)
    ensures |rs| == |us|
    ensures forall i :: 0 <= i < |us| ==> rs[i] == ToRow(us[i])
  {
    if us == [] then [] else Rows(us[..|us| - 1]) + [ToRow(us[|us| - 1])]
  }

  /** Whether the walk asks for another page after this one. */
  predicate HasMore(users: seq<DirectoryUser>, nextPage: Option<int>) {
    nextPage.Some? && |users| == PER_PAGE
  }

  /** `rows` in front of the rest of the walk, or the rest's error. */
  function Glue(rows: seq<AuthUserRow>, rest: Result<seq<AuthUserRow>>): Result<seq<AuthUserRow>> {
    if rest.Failure? then rest else Success(rows + rest.value)
  }

  /**
   * The users the walk collects from `page` on, fetching at most `fuel`
   * pages: the first error ends it with that error, and it continues while
   * a page is full and names a next page.
   */
  function Collect(fetch: int -> PageResult, page: int, fuel: nat): Result<seq<AuthUserRow>>
    decreases fuel
  {
    if fuel == 0 then Success([])
    else
      match fetch(page)
      case PageError(m) => Failure(m)
      case PageData(us, np) =>
        if HasMore(us, np) then Glue(Rows(us), Collect(fetch, np.value, fuel - 1))
        else Success(Rows(us))
  }

  /** `listAllUsers()`. `fetch(page)` is the provider call; `fuel` bounds the number of pages requested. */
  method ListAllUsers(caller: Option<User>, fetch: int -> PageResult, fuel: nat) returns (r: Result<seq<AuthUserRow>>)
    ensures RequireSuperadmin(caller).Failure? ==> r == Failure(RequireSuperadmin(caller).error)
    ensures RequireSuperadmin(caller).Success? ==> r == Collect(fetch, 1, fuel)
  {
    var gate := RequireSuperadmin(caller);
    if gate.Failure? {
      return Failure(gate.error);
    }
    var all: seq<AuthUserRow> := [];
    var page := 1;
    var hasMore := true;
    var left := fuel;
    GlueNothing(Collect(fetch, page, left));
    while hasMore && left > 0
      invariant hasMore ==> Collect(fetch, 1, fuel) == Glue(all, Collect(fetch, page, left))
      invariant !hasMore ==> Collect(fetch, 1, fuel) == Success(all)
      decreases left
    {
      var res := fetch(page);
      if res.PageError? {
        return Failure(res.message);
      }
      var users := res.users;
      ghost var before := all;
      all := PushRows(all, users);
      CollectStep(fetch, page, left, before);
      hasMore := HasMore(users, res.nextPage);
      if hasMore {
        page := res.nextPage.value;
      }
      left := left - 1;
    }
    if hasMore {
      assert all + [] == all;
    }
    return Success(all);
  }

  /** `for (const u of users) all.push(row(u))`. */
  method PushRows(all: seq<AuthUserRow>, users: seq<DirectoryUser>) returns (r: seq<AuthUserRow>)
    ensures r == all + Rows(users)
  {
    r := all;
    var j := 0;
    while j < |users|
      invariant 0 <= j <= |users|
      invariant r == all + Rows(users[..j])
    {
      r := r + [ToRow(users[j])];
      assert users[..j + 1][..j] == users[..j];
      j := j + 1;
    }
    assert users[..j] == users;
  }

  /** One page of the walk, seen from the rows collected so far. */
  lemma CollectStep(fetch: int -> PageResult, page: int, left: nat, before: seq<AuthUserRow>)
    requires left > 0 && fetch(page).PageData?
    ensures var us, np := fetch(page).users, fetch(page).nextPage;
      Glue(before, Collect(fetch, page, left)) ==
        if HasMore(us, np) then Glue(before + Rows(us), Collect(fetch, np.value, left - 1))
        else Success(before + Rows(us))
  {
    var us, np := fetch(page).users, fetch(page).nextPage;
    if HasMore(us, np) {
      GlueAssoc(before, Rows(us), Collect(fetch, np.value, left - 1));
    }
  }

  lemma GlueNothing(rest: Result<seq<AuthUserRow>>)
    ensures Glue([], rest) == rest
  {
    if rest.Success? {
      assert [] + rest.value == rest.value;
    }
  }

  lemma GlueAssoc(xs: seq<AuthUserRow>, ys: seq<AuthUserRow>, rest: Result<seq<AuthUserRow>>)
    ensures Glue(xs, Glue(ys, rest)) == Glue(xs + ys, rest)
  {
    if rest.Success? {
      assert xs + (ys + rest.value) == (xs + ys) + rest.value;
    }
  }

  /** Every listed row is the row of a user some fetched page returned: with pages drawn from `dir`, rows are drawn from `dir`. */
  lemma {:induction false} RowsComeFromDirectory(fetch: int -> PageResult, page: int, fuel: nat, dir: set<DirectoryUser>)
    requires forall p :: fetch(p).PageData? ==> forall u :: u in fetch(p).users ==> u in dir
    ensures Collect(fetch, page, fuel).Success? ==>
      forall row :: row in Collect(fetch, page, fuel).value ==> exists u :: u in dir && row == ToRow(u)
    decreases fuel
  {
    if fuel > 0 && fetch(page).PageData? {
      var us, np := fetch(page).users, fetch(page).nextPage;
      forall row | row in Rows(us) ensures exists u :: u in dir && row == ToRow(u) {
        var i :| 0 <= i < |Rows(us)| && Rows(us)[i] == row;
        assert us[i] in us;
      }
      if HasMore(us, np) {
        RowsComeFromDirectory(fetch, np.value, fuel - 1, dir);
      }
    }
  }

  /** A failed walk reports the message of a page it fetched, and nothing collected before it. */
  lemma {:induction false} FailureIsAPageError(fetch: int -> PageResult, page: int, fuel: nat)
    ensures Collect(fetch, page, fuel).Failure? ==>
      exists p :: fetch(p).PageError? && fetch(p).message == Collect(fetch, page, fuel).error
    decreases fuel
  {
    if fuel > 0 && fetch(page).PageData? {
      var us, np := fetch(page).users, fetch(page).nextPage;
      if HasMore(us, np) {
        FailureIsAPageError(fetch, np.value, fuel - 1);
      }
    }
  }

  /** A page that is short, or names no next page, is the last one fetched. */
  lemma LastPage(fetch: int -> PageResult, page: int, fuel: nat)
    requires fuel > 0 && fetch(page).PageData?
    requires |fetch(page).users| != 100 || fetch(page).nextPage.None?
    ensures Collect(fetch, page, fuel) == Success(Rows(fetch(page).users))
  {
  }

  /** A full first page naming page 2, followed by a final page, lists both pages' users in order. */
  lemma FullPageContinues(fetch: int -> PageResult, fuel: nat, first: seq<DirectoryUser>, second: seq<DirectoryUser>)
    requires fuel >= 2
    requires fetch(1) == PageData(first, Some(2)) && |first| == 100
    requires fetch(2) == PageData(second, None)
    ensures Collect(fetch, 1, fuel) == Success(Rows(first) + Rows(second))
  {
    assert Collect(fetch, 2, fuel - 1) == Success(Rows(second));
  }
}

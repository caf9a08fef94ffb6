/** The users page: one page of users from the paginated endpoint, a search box, a switch to
    include banned users, ban/unban per user, and two column filters applied to the page in
    the browser. The calls to the back end are not modelled; their outcomes are passed in. */
module UsersPage {
  import opened Wrappers
  import opened Seqs
  import opened Strings
  import opened Http
  import opened Lists

  /** A user row: its id, e-mail and ban flag, and whatever else the back end sends. */
  datatype User = User(id: string, email: string, isBanned: bool, details: map<string, Json>)

  function UserKey(u: User): string { u.id }

  /** The query of one fetch; `None` stands for a parameter left `undefined`, which is not sent. */
  datatype UsersQuery = UsersQuery(page: int, limit: int, q: Option<string>, includeBanned: Option<string>)

  /** The body of a fetch: the users and the server's pagination block. */
  datatype UsersData = UsersData(users: seq<User>, total: int, totalPages: int, currentPage: int, limit: int)

  const DefaultPage: int := 1
  const DefaultPageSize: int := 10
  const BannedValue: string := "banned"

  /** The parameters for a page under the current search and switch. */
  function QueryFor(page: int, pageSize: int, searchQuery: string, includeBanned: bool): (r: UsersQuery)
    ensures r.page == page && r.limit == pageSize
    ensures r.q.Some? <==> searchQuery != ""
    ensures r.q.Some? ==> r.q.value == searchQuery
    ensures r.includeBanned.Some? <==> includeBanned
    ensures r.includeBanned.Some? ==> r.includeBanned.value == "true"
  {
    UsersQuery(page, pageSize,
      if searchQuery != "" then Some(searchQuery) else None,
      if includeBanned then Some("true") else None)
  }

  /** `user.id === userId ? { ...user, isBanned: banned } : user`. */
  function BanIf(userId: string, banned: bool): User -> User {
    (u: User) => if u.id == userId then u.(isBanned := banned) else u
  }

  /** The list after the ban call for `userId` succeeds with the new flag `banned`. */
  function SetBanned(users: seq<User>, userId: string, banned: bool): seq<User> {
    MapSeq(users, BanIf(userId, banned))
  }

  /** Only the matching user's flag changes; length, order, ids and every other field stay. */
  lemma SetBannedSpec(users: seq<User>, userId: string, banned: bool)
    ensures var r := SetBanned(users, userId, banned);
      && |r| == |users|
      && Keys(r, UserKey) == Keys(users, UserKey)
      && (forall i :: 0 <= i < |users| && users[i].id == userId ==> r[i] == users[i].(isBanned := banned))
      && (forall i :: 0 <= i < |users| && users[i].id != userId ==> r[i] == users[i])
  {
  }

  /** Confirming on a row sends the row's own flag, so the matching user's flag is flipped. */
  lemma BanFlipsRow(users: seq<User>, i: nat)
    requires i < |users|
    requires UniqueKeys(users, UserKey)
    ensures var r := SetBanned(users, users[i].id, !users[i].isBanned);
      r[i].isBanned == !users[i].isBanned && r[i].(isBanned := users[i].isBanned) == users[i]
      && forall j :: 0 <= j < |users| && j != i ==> r[j] == users[j]
  {
    forall j | 0 <= j < |users| && j != i
      ensures users[j].id != users[i].id
    {
      if j < i {
        assert UserKey(users[j]) != UserKey(users[i]);
      } else {
        assert UserKey(users[i]) != UserKey(users[j]);
      }
    }
  }

  /** Banning and then unbanning a user gives the list back. */
  lemma BanThenUnban(users: seq<User>, userId: string, banned: bool)
    requires forall i :: 0 <= i < |users| && users[i].id == userId ==> users[i].isBanned == banned
    ensures SetBanned(SetBanned(users, userId, !banned), userId, banned) == users
  {
    var r := SetBanned(SetBanned(users, userId, !banned), userId, banned);
    forall i | 0 <= i < |users|
      ensures r[i] == users[i]
    {
    }
  }

  /** The e-mail column filter: a case-insensitive substring match. */
  predicate EmailMatches(value: string, record: User) {
    Includes(ToLower(record.email), ToLower(value))
  }

  /** The e-mail filter ignores the case of both the typed value and the address. */
  lemma EmailFilterIgnoresCase(value: string, record: User)
    ensures EmailMatches(ToUpper(value), record) == EmailMatches(value, record)
    ensures EmailMatches(value, record.(email := ToUpper(record.email))) == EmailMatches(value, record)
  {
    LowerOfUpper(value);
    LowerOfUpper(record.email);
  }

  /** An empty filter keeps every user, and every user is kept by its own address. */
  lemma EmailFilterTrivial(record: User)
    ensures EmailMatches("", record)
    ensures EmailMatches(record.email, record)
  {
    var e := ToLower(record.email);
    assert OccursAt(e, ToLower(""), 0);
    assert OccursAt(e, e, 0);
  }

  /** The status column filter: banned users for "banned", the others for any other value. */
  predicate StatusMatches(value: string, record: User) {
    if value == BannedValue then record.isBanned else !record.isBanned
  }

  function StatusKeeps(value: string): User -> bool { (u: User) => StatusMatches(value, u) }

  /** The two settings of the status filter split any page between them. */
  lemma {:induction false} StatusFilterPartition(users: seq<User>, other: string)
    requires other != BannedValue
    ensures |Filter(users, StatusKeeps(BannedValue))| + |Filter(users, StatusKeeps(other))| == |users|
    ensures forall i :: 0 <= i < |users| ==> StatusMatches(BannedValue, users[i]) != StatusMatches(other, users[i])
    decreases |users|
  {
    if users != [] {
      StatusFilterPartition(users[1..], other);
    }
  }

  /** The page state. */
  class UsersListPage {
    var users: seq<User>
    var loading: bool
    var current: int
    var pageSize: int
    var total: int
    var searchQuery: string
    var includeBanned: bool

    constructor()
      ensures users == [] && !loading && current == DefaultPage && pageSize == DefaultPageSize && total == 0
      ensures searchQuery == "" && !includeBanned
    {
      users := [];
      loading := false;
      current := DefaultPage;
      pageSize := DefaultPageSize;
      total := 0;
      searchQuery := "";
      includeBanned := false;
    }

    /** `fetchUsers(page = 1, pageSize = 10)`: on success the list and the pagination come from
        the server, except the page size, which is the one asked for. A failure is only logged. */
    method FetchUsers(page: Option<int>, size: Option<int>, response: Response<UsersData>) returns (query: UsersQuery)
      modifies this
      ensures query == QueryFor(page.GetOr(DefaultPage), size.GetOr(DefaultPageSize), old(searchQuery), old(includeBanned))
      ensures response.Ok? ==>
        && users == response.data.users && current == response.data.currentPage
        && pageSize == size.GetOr(DefaultPageSize) && total == response.data.total
      ensures response.Err? ==> users == old(users) && current == old(current) && pageSize == old(pageSize) && total == old(total)
      ensures !loading && searchQuery == old(searchQuery) && includeBanned == old(includeBanned)
    {
      var p := page.GetOr(DefaultPage);
      var n := size.GetOr(DefaultPageSize);
      loading := true;
      query := UsersQuery(p, n, if searchQuery != "" then Some(searchQuery) else None,
                          if includeBanned then Some("true") else None);
      match response {
        case Ok(data) =>
          users := data.users;
          current := data.currentPage;
          pageSize := n;
          total := data.total;
        case Err(_) =>
      }
      loading := false;
    }

    /** `handleBanUser`: sends the opposite of the given flag and, once the call succeeds,
        gives the matching user that flag. */
    method BanUser(userId: string, isBanned: bool, response: Response<Json>) returns (sentIsBanned: bool)
      modifies this
      ensures sentIsBanned == !isBanned
      ensures response.Ok? ==> users == SetBanned(old(users), userId, !isBanned)
      ensures response.Err? ==> users == old(users)
      ensures !loading && current == old(current) && pageSize == old(pageSize) && total == old(total)
      ensures searchQuery == old(searchQuery) && includeBanned == old(includeBanned)
    {
      loading := true;
      sentIsBanned := !isBanned;
      if response.Ok? {
        users := SetBanned(users, userId, !isBanned);
      }
      loading := false;
    }

    /** `handleTableChange`: the table's page and size replace the current ones; the total stays. */
    method TableChange(newCurrent: int, newPageSize: int)
      modifies this
      ensures current == newCurrent && pageSize == newPageSize && total == old(total)
      ensures users == old(users) && loading == old(loading)
      ensures searchQuery == old(searchQuery) && includeBanned == old(includeBanned)
    {
      current := newCurrent;
      pageSize := newPageSize;
    }

    /** `handleSearch`: a new search starts again from the first page. */
    method Search(value: string)
      modifies this
      ensures searchQuery == value && current == DefaultPage
      ensures pageSize == old(pageSize) && total == old(total) && users == old(users)
      ensures loading == old(loading) && includeBanned == old(includeBanned)
    {
      searchQuery := value;
      current := DefaultPage;
    }

    /** The "Show Banned" switch. */
    method SetIncludeBanned(checked: bool)
      modifies this
      ensures includeBanned == checked
      ensures users == old(users) && loading == old(loading) && current == old(current)
      ensures pageSize == old(pageSize) && total == old(total) && searchQuery == old(searchQuery)
    {
      includeBanned := checked;
    }
  }
}

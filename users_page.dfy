/** The users list page: what it derives from the list query's response,
    which body it renders, the avatar initials, and its component state
    (current page, pending deletion) with the handlers that update it. */
module UsersPage {
  import opened Wrappers
  import opened Pagination

  /** Placeholder rows shown while the list is loading. */
  const SkeletonRowCount: nat := 5

  /** Image shown for a user without an avatar URL. */
  const PlaceholderAvatar: string := "/placeholder.svg"

  datatype Avatar = Avatar(url: Option<string>)

  /** One user as the list endpoint returns it (`_id`, `name`, `phone`, `avatar`, `totalPosts`). */
  datatype User = User(id: string, name: string, phone: string, avatar: Option<Avatar>, totalPosts: int)

  /** The pagination envelope the server sends with a page of users. */
  datatype PaginationInfo = PaginationInfo(totalPages: int, hasNextPage: bool, hasPrevPage: bool, totalUsers: int)

  /** The part of the list response the page reads (`data.data.users`, `data.data.pagination`). */
  datatype UsersResponse = UsersResponse(users: Option<seq<User>>, pagination: Option<PaginationInfo>)

  // ---------------------------------------------------------------------
  // Values derived from the response, with the page's defaults

  function UsersOf(response: Option<UsersResponse>): (users: seq<User>)
    ensures response.Some? && response.value.users.Some? ==> users == response.value.users.value
    ensures response.None? || response.value.users.None? ==> users == []
  {
    if response.Some? then response.value.users.GetOr([]) else []
  }

  /** `usersData?.data?.data?.pagination`. */
  function PaginationOf(response: Option<UsersResponse>): (p: Option<PaginationInfo>)
    ensures response.None? ==> p.None?
    ensures response.Some? ==> p == response.value.pagination
  {
    if response.Some? then response.value.pagination else None
  }

  /** `pagination?.totalPages || 1`: a missing envelope and a zero count both read as one page. */
  function TotalPages(response: Option<UsersResponse>): (n: int)
    ensures n != 0
    ensures PaginationOf(response).None? ==> n == 1
    ensures PaginationOf(response).Some? ==>
              n == if PaginationOf(response).value.totalPages == 0 then 1 else PaginationOf(response).value.totalPages
  {
    match PaginationOf(response)
    case None => 1
    case Some(p) => if p.totalPages == 0 then 1 else p.totalPages
  }

  /** `pagination?.hasPrevPage || false`. */
  function HasPrevPage(response: Option<UsersResponse>): (b: bool)
    ensures b <==> PaginationOf(response).Some? && PaginationOf(response).value.hasPrevPage
  {
    match PaginationOf(response)
    case None => false
    case Some(p) => p.hasPrevPage
  }

  /** `pagination?.hasNextPage || false`. */
  function HasNextPage(response: Option<UsersResponse>): (b: bool)
    ensures b <==> PaginationOf(response).Some? && PaginationOf(response).value.hasNextPage
  {
    match PaginationOf(response)
    case None => false
    case Some(p) => p.hasNextPage
  }

  // ---------------------------------------------------------------------
  // Avatar initials: name.split(" ").map(n => n[0]).join("").toUpperCase()

  /** `s.split(" ")`: the pieces between single spaces, empty pieces included. */
  function Split(s: string): (parts: seq<string>)
    ensures |parts| >= 1
    ensures forall k :: 0 <= k < |parts| ==> ' ' !in parts[k]
  {
    if s == [] then [[]]
    else
      var rest := Split(s[1..]);
      if s[0] == ' ' then [[]] + rest
      else [[s[0]] + rest[0]] + rest[1..]
  }

  /** `parts.join(" ")`. */
  function JoinWithSpaces(parts: seq<string>): string {
    if |parts| == 0 then []
    else if |parts| == 1 then parts[0]
    else parts[0] + [' '] + JoinWithSpaces(parts[1..])
  }

  /** Splitting at spaces loses nothing: joining the pieces again gives the name back. */
  lemma {:induction false} JoinSplit(s: string)
    ensures JoinWithSpaces(Split(s)) == s
  {
    if s != [] {
      var rest := Split(s[1..]);
      JoinSplit(s[1..]);
      if s[0] == ' ' {
        assert ([[]] + rest)[1..] == rest;
      } else {
        var parts := [[s[0]] + rest[0]] + rest[1..];
        if |rest| == 1 {
          assert rest[0] == s[1..];
          assert [s[0]] + s[1..] == s;
        } else {
          assert parts[1..] == rest[1..];
          assert JoinWithSpaces(rest) == rest[0] + [' '] + JoinWithSpaces(rest[1..]);
        }
      }
    }
  }

  /** `.map(n => n[0]).join("")`: the first character of every piece; an
      empty piece gives `undefined`, which `join` renders as nothing. */
  function FirstChars(parts: seq<string>): (firsts: string)
    ensures |firsts| <= |parts|
    ensures (forall j :: 0 <= j < |parts| ==> parts[j] != []) ==> |firsts| == |parts|
  {
    if parts == [] then []
    else (if parts[0] == [] then [] else [parts[0][0]]) + FirstChars(parts[1..])
  }

  /** Every character `FirstChars` yields is the first character of a non-empty piece. */
  lemma {:induction false} FirstCharsComeFromPieces(parts: seq<string>)
    ensures forall k :: 0 <= k < |FirstChars(parts)| ==>
              exists j :: 0 <= j < |parts| && parts[j] != [] && parts[j][0] == FirstChars(parts)[k]
  {
    if parts == [] {
      assert FirstChars(parts) == [];
    } else {
      var tail := parts[1..];
      FirstCharsComeFromPieces(tail);
      var head := if parts[0] == [] then [] else [parts[0][0]];
      assert FirstChars(parts) == head + FirstChars(tail);
      forall k | 0 <= k < |FirstChars(parts)|
        ensures exists j :: 0 <= j < |parts| && parts[j] != [] && parts[j][0] == FirstChars(parts)[k]
      {
        if k < |head| {
          assert parts[0] != [] && parts[0][0] == FirstChars(parts)[k];
        } else {
          var j :| 0 <= j < |tail| && tail[j] != [] && tail[j][0] == FirstChars(tail)[k - |head|];
          assert parts[j + 1] == tail[j];
        }
      }
    }
  }

  /** `toUpperCase` on one character (ASCII letters only). */
  function ToUpper(c: char): char {
    if 'a' <= c <= 'z' then (c as int - 32) as char else c
  }

  function UpperCase(s: string): (r: string)
    ensures |r| == |s|
    ensures forall k :: 0 <= k < |r| ==> !('a' <= r[k] <= 'z')
    ensures forall k :: 0 <= k < |r| ==> (if 'a' <= s[k] <= 'z' then r[k] as int == s[k] as int - 32 else r[k] == s[k])
  {
    seq(|s|, k requires 0 <= k < |s| => ToUpper(s[k]))
  }

  /** The avatar fallback text for a user called `name`. */
  function Initials(name: string): (initials: string)
    ensures |initials| <= |name|
    ensures forall k :: 0 <= k < |initials| ==> !('a' <= initials[k] <= 'z')
  {
    FirstCharsOfSplit(name);
    UpperCase(FirstChars(Split(name)))
  }

  /** Reference definition of the initials' letters: every non-space
      character of `s` that opens the string (when `atStart`) or follows a space. */
  function WordStarts(s: string, atStart: bool): (starts: string)
    ensures |starts| <= |s|
  {
    if s == [] then []
    else (if atStart && s[0] != ' ' then [s[0]] else []) + WordStarts(s[1..], s[0] == ' ')
  }

  lemma FirstCharsCons(head: string, rest: seq<string>)
    ensures FirstChars([head] + rest) == (if head == [] then [] else [head[0]]) + FirstChars(rest)
  {
    assert ([head] + rest)[1..] == rest;
  }

  lemma {:induction false} FirstCharsOfSplit(s: string)
    ensures FirstChars(Split(s)) == WordStarts(s, true)
    ensures FirstChars(Split(s)[1..]) == WordStarts(s, false)
  {
    if s != [] {
      var rest := Split(s[1..]);
      FirstCharsOfSplit(s[1..]);
      assert WordStarts(s, false) == WordStarts(s[1..], s[0] == ' ');
      if s[0] == ' ' {
        assert Split(s) == [[]] + rest;
        FirstCharsCons([], rest);
        assert Split(s)[1..] == rest;
        assert WordStarts(s, true) == WordStarts(s[1..], true);
      } else {
        assert Split(s) == [[s[0]] + rest[0]] + rest[1..];
        FirstCharsCons([s[0]] + rest[0], rest[1..]);
        assert Split(s)[1..] == rest[1..];
        assert WordStarts(s, true) == [s[0]] + WordStarts(s[1..], false);
      }
    }
  }

  /** The initials are the upper-cased first letters of the words of the
      name, in order, with runs of spaces and leading spaces skipped. */
  lemma InitialsAreWordStarts(name: string)
    ensures Initials(name) == UpperCase(WordStarts(name, true))
  {
    FirstCharsOfSplit(name);
  }

  // ---------------------------------------------------------------------
  // The table body

  /** One table row of the user list. */
  datatype Row = Row(userId: string, name: string, initials: string, avatarSrc: string,
                     phone: string, totalPosts: int, deleteDisabled: bool)

  /** What the table body shows. */
  datatype Body = SkeletonRows(count: nat) | UserRows(rows: seq<Row>) | EmptyState

  /** `user.avatar?.url || "/placeholder.svg"`. */
  function AvatarSrc(u: User): (src: string)
    ensures !(u.avatar.Some? && u.avatar.value.url.Some? && u.avatar.value.url.value != "") ==> src == PlaceholderAvatar
    ensures (u.avatar.Some? && u.avatar.value.url.Some? && u.avatar.value.url.value != "") ==> src == u.avatar.value.url.value
  {
    if u.avatar.Some? && u.avatar.value.url.Some? && u.avatar.value.url.value != "" then u.avatar.value.url.value
    else PlaceholderAvatar
  }

  /** Whether the Delete button of the row for `userId` is disabled. */
  function DeleteButtonDisabled(deletePending: bool, deleteUserId: Option<string>, userId: string): (disabled: bool)
    ensures disabled ==> deletePending
    ensures disabled ==> deleteUserId == Some(userId)
    ensures deletePending && deleteUserId == Some(userId) ==> disabled
  {
    deletePending && deleteUserId == Some(userId)
  }

  /** The table row of user `u`. */
  function RowFor(u: User, deletePending: bool, deleteUserId: Option<string>): (row: Row)
    ensures row.userId == u.id && row.name == u.name && row.phone == u.phone && row.totalPosts == u.totalPosts
    ensures row.initials == Initials(u.name) && row.avatarSrc == AvatarSrc(u)
    ensures row.deleteDisabled <==> deletePending && deleteUserId == Some(u.id)
  {
    Row(u.id, u.name, Initials(u.name), AvatarSrc(u), u.phone, u.totalPosts,
        DeleteButtonDisabled(deletePending, deleteUserId, u.id))
  }

  /** The body branch: skeleton rows while loading, one row per user when
      there are users, the empty state otherwise. */
  function RenderBody(isLoading: bool, users: seq<User>, deletePending: bool, deleteUserId: Option<string>): (b: Body)
    ensures b.SkeletonRows? <==> isLoading
    ensures b.SkeletonRows? ==> b.count == SkeletonRowCount
    ensures b.UserRows? <==> !isLoading && users != []
    ensures b.EmptyState? <==> !isLoading && users == []
    ensures b.UserRows? ==> b.rows != [] && |b.rows| == |users|
    ensures b.UserRows? ==> forall k :: 0 <= k < |users| ==>
              b.rows[k].userId == users[k].id && b.rows[k].name == users[k].name &&
              b.rows[k].initials == Initials(users[k].name) &&
              b.rows[k].avatarSrc == AvatarSrc(users[k]) &&
              b.rows[k].phone == users[k].phone && b.rows[k].totalPosts == users[k].totalPosts &&
              b.rows[k].deleteDisabled == (deletePending && deleteUserId == Some(users[k].id))
  {
    if isLoading then SkeletonRows(SkeletonRowCount)
    else if |users| > 0 then UserRows(seq(|users|, k requires 0 <= k < |users| => RowFor(users[k], deletePending, deleteUserId)))
    else EmptyState
  }

  /** The footer: the range label and the pagination controls. */
  datatype Footer = Footer(range: RangeLabel, controls: seq<Control>)

  datatype PageView = PageView(body: Body, footer: Option<Footer>)

  // ---------------------------------------------------------------------
  // Component state

  /** The page's state: the page shown, the user whose deletion was last
      confirmed, and whether that deletion request is still in flight. */
  class UsersPageState {
    var currentPage: int
    var deleteUserId: Option<string>
    var deletePending: bool
    /** Set once a deletion succeeded: the cached user lists were invalidated. */
    var listInvalidated: bool

    /** A deletion is pending exactly while the page remembers whose it is. */
    ghost predicate Valid()
      reads this
    {
      deletePending <==> deleteUserId.Some?
    }

    constructor ()
      ensures Valid()
      ensures currentPage == 1 && deleteUserId == None && !deletePending && !listInvalidated
    {
      currentPage := 1;
      deleteUserId := None;
      deletePending := false;
      listInvalidated := false;
    }

    predicate DeleteDisabled(userId: string)
      reads this
    {
      DeleteButtonDisabled(deletePending, deleteUserId, userId)
    }

    /** In a valid state a Delete button is disabled exactly for the user
        whose deletion was last confirmed. */
    lemma DisabledIsRecordedUser(userId: string)
      requires Valid()
      ensures DeleteDisabled(userId) <==> deleteUserId == Some(userId)
    {
    }

    /** Render the page for the latest list response. */
    method Render(response: Option<UsersResponse>, isLoading: bool) returns (view: PageView)
      ensures view.body == RenderBody(isLoading, UsersOf(response), deletePending, deleteUserId)
      ensures view.footer.Some? <==> PaginationOf(response).Some? && TotalPages(response) > 1
      ensures view.footer.Some? ==>
                view.footer.value.range == ShowingRange(currentPage, PaginationOf(response).value.totalUsers) &&
                view.footer.value.controls == Controls(currentPage, TotalPages(response), HasPrevPage(response), HasNextPage(response))
    {
      var body := RenderBody(isLoading, UsersOf(response), deletePending, deleteUserId);
      var pagination := PaginationOf(response);
      var totalPages := TotalPages(response);
      if pagination.Some? && totalPages > 1 {
        var controls := RenderPaginationButtons(currentPage, totalPages, HasPrevPage(response), HasNextPage(response));
        var range := ShowingRange(currentPage, pagination.value.totalUsers);
        view := PageView(body, Some(Footer(range, controls)));
      } else {
        view := PageView(body, None);
      }
    }

    /** A click on a pagination control rendered for the current page:
        prev goes one page back, next one page on, a page button to its
        page; a disabled control does nothing. */
    method Press(c: Control)
      modifies this
      ensures old(Valid()) ==> Valid()
      ensures currentPage == if c.disabled then old(currentPage) else Target(c, old(currentPage))
      ensures deleteUserId == old(deleteUserId) && deletePending == old(deletePending)
      ensures listInvalidated == old(listInvalidated)
    {
      if !c.disabled {
        currentPage := Target(c, currentPage);
      }
    }

    /** The Delete action of the confirmation dialog for `userId`: remember
        the user and start the deletion request. */
    method ConfirmDelete(userId: string)
      modifies this
      ensures Valid()
      ensures deleteUserId == Some(userId) && deletePending
      ensures currentPage == old(currentPage) && listInvalidated == old(listInvalidated)
      ensures DeleteDisabled(userId)
      ensures forall other :: other != userId ==> !DeleteDisabled(other)
    {
      deleteUserId := Some(userId);
      deletePending := true;
    }

    /** The deletion request succeeded: forget the user and invalidate the lists. */
    method DeleteSucceeded()
      modifies this
      ensures Valid()
      ensures deleteUserId == None && !deletePending && listInvalidated
      ensures currentPage == old(currentPage)
      ensures forall userId :: !DeleteDisabled(userId)
    {
      deleteUserId := None;
      deletePending := false;
      listInvalidated := true;
    }

    /** The deletion request failed: forget the user; nothing else changes. */
    method DeleteFailed()
      modifies this
      ensures Valid()
      ensures deleteUserId == None && !deletePending
      ensures currentPage == old(currentPage) && listInvalidated == old(listInvalidated)
      ensures forall userId :: !DeleteDisabled(userId)
    {
      deleteUserId := None;
      deletePending := false;
    }
  }
}

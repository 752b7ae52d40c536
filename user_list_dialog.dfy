/**
 * The dialog that lists users to start a chat with: it loads one page of ten users at a
 * time from the gateway, filters the loaded page by the search box on the client, and
 * shows initials, display names and a "Showing a-b of n" label.
 */
module UserListDialog {
  import opened Common
  import opened ApiGateway

  /** The fixed page size of the list. */
  const PageSize: nat := 10

  /** The user shape the dialog reads from the page it loaded. */
  datatype ListUser = ListUser(
    id: string,
    username: string,
    email: string,
    firstName: Option<string>,
    lastName: Option<string>,
    name: Option<string>,
    roles: Option<seq<string>>)

  /** The body of a page of users. */
  datatype UserPage = UserPage(content: Option<seq<ListUser>>, totalPages: Option<int>, totalElements: Option<int>)

  /** `n || 0` on an optional number (a zero is replaced by zero). */
  function OrZero(n: Option<int>): int {
    if n.Some? then n.value else 0
  }

  // ---------------------------------------------------------------------------
  // Loading a page
  // ---------------------------------------------------------------------------

  /** The list state a successful load installs. */
  datatype Loaded = Loaded(users: seq<ListUser>, totalPages: int, totalElements: int, currentPage: nat)

  const LoadFailedMessage := "Failed to load users. Please try again."

  /**
   * How `fetchUsers(page)` ends for a given exchange: the state it installs, or the
   * description of the error toast. A failed exchange shows the gateway's message; a
   * response without a body makes reading `content` throw, which shows the generic message.
   */
  function LoadPage(page: nat, exchange: Result<HttpResponse<UserPage>, HttpFailure>): (r: Result<Loaded, string>)
    ensures r.Ok? <==> exchange.Ok? && exchange.value.data.Some?
    ensures exchange.Err? ==> r == Err(HandleApiError(exchange.error).message)
    ensures exchange.Ok? && exchange.value.data.None? ==> r == Err(LoadFailedMessage)
    ensures r.Err? ==> r.error != ""
    ensures r.Ok? ==> r.value.currentPage == page && r.value.users == SeqOrEmpty(exchange.value.data.value.content)
    ensures r.Ok? ==> r.value.totalPages == OrZero(exchange.value.data.value.totalPages) &&
                      r.value.totalElements == OrZero(exchange.value.data.value.totalElements)
  {
    var response := Call(Endpoint.GetAllUsers(page, PageSize), exchange);
    ErrorFieldSignalsFailure(Endpoint.GetAllUsers(page, PageSize), exchange);
    if Truthy(response.error) then Err(response.error.value)
    else if response.data.None? then Err(LoadFailedMessage)
    else
      var data := response.data.value;
      Ok(Loaded(SeqOrEmpty(data.content), OrZero(data.totalPages), OrZero(data.totalElements), page))
  }

  // ---------------------------------------------------------------------------
  // Client-side filter
  // ---------------------------------------------------------------------------

  /** `field?.toLowerCase().includes(q)`: an absent field does not match. */
  predicate FieldIncludes(field: Option<string>, q: string) {
    field.Some? && Includes(Lower(field.value), q)
  }

  /** The filter callback: an empty term keeps everyone; otherwise any field containing the lower-cased term. */
  predicate Matches(u: ListUser, term: string): (m: bool)
    ensures term == "" ==> m
    ensures Lower(u.username) == Lower(term) ==> m
    ensures Lower(u.email) == Lower(term) ==> m
    ensures m && term != "" ==>
      Includes(Lower(u.username), Lower(term)) || Includes(Lower(u.email), Lower(term)) ||
      FieldIncludes(u.firstName, Lower(term)) || FieldIncludes(u.lastName, Lower(term)) || FieldIncludes(u.name, Lower(term))
  {
    assert Lower(u.username) == Lower(term) ==> OccursAt(Lower(u.username), Lower(term), 0);
    assert Lower(u.email) == Lower(term) ==> OccursAt(Lower(u.email), Lower(term), 0);
    term == "" ||
    var q := Lower(term);
    Includes(Lower(u.username), q) || Includes(Lower(u.email), q) ||
    FieldIncludes(u.firstName, q) || FieldIncludes(u.lastName, q) || FieldIncludes(u.name, q)
  }

  /** `users.filter(...)`: the loaded users that match, in their order. */
  function Filter(users: seq<ListUser>, term: string): (r: seq<ListUser>)
    ensures |r| <= |users|
    ensures forall u :: u in r <==> u in users && Matches(u, term)
    ensures term == "" ==> r == users
  {
    if users == [] then []
    else (if Matches(users[0], term) then [users[0]] else []) + Filter(users[1..], term)
  }

  /** The filter keeps order: filtering a concatenation concatenates the filtered parts. */
  lemma {:induction false} FilterAppend(a: seq<ListUser>, b: seq<ListUser>, term: string)
    ensures Filter(a + b, term) == Filter(a, term) + Filter(b, term)
  {
    if a == [] {
      assert a + b == b;
    } else {
      assert (a + b)[0] == a[0];
      assert (a + b)[1..] == a[1..] + b;
      FilterAppend(a[1..], b, term);
    }
  }

  // ---------------------------------------------------------------------------
  // Initials and display name
  // ---------------------------------------------------------------------------

  /** `${s[0]}` in a template: the first character, or the text "undefined" for an empty string. */
  function FirstOrUndefined(s: string): string {
    if s == "" then "undefined" else [s[0]]
  }

  /** `s?.[0]?.toUpperCase()` as a truthiness test: the upper-cased first character, if any. */
  function FirstUpper(s: string): Option<string> {
    if s == "" then None else Some(Upper([s[0]]))
  }

  /**
   * `getUserInitials` as written: the name is split on every single space, so a leading
   * or trailing space makes an empty first or last piece, whose `[0]` prints as
   * "undefined".
   */
  function InitialsAsWritten(u: ListUser): (r: string)
    ensures |r| >= 1
    ensures Truthy(u.firstName) && Truthy(u.lastName) ==> r == Upper([u.firstName.value[0], u.lastName.value[0]])
    ensures !(Truthy(u.firstName) && Truthy(u.lastName)) && !Truthy(u.name)
      ==> r == (if u.username != "" then Upper([u.username[0]]) else if u.email != "" then Upper([u.email[0]]) else "U")
    ensures !(Truthy(u.firstName) && Truthy(u.lastName)) && Truthy(u.name) && ' ' !in u.name.value
      ==> r == Upper([u.name.value[0]])
  {
    if Truthy(u.firstName) && Truthy(u.lastName) then Upper([u.firstName.value[0], u.lastName.value[0]])
    else if Truthy(u.name) then
      assert ' ' !in u.name.value ==> SplitAll(u.name.value, ' ') == [u.name.value] by {
        if ' ' !in u.name.value { SplitAllNoSep(u.name.value, ' '); }
      }
      var names := SplitAll(u.name.value, ' ');
      if |names| > 1 then Upper(FirstOrUndefined(names[0]) + FirstOrUndefined(names[|names| - 1]))
      else Upper([names[0][0]])
    else OrElse(Or(FirstUpper(u.username), FirstUpper(u.email)), "U")
  }

  /** " Ann" yields "UNDEFINEDA": ten characters where at most two initials were meant. */
  lemma LeadingSpaceInitials(u: ListUser)
    requires u.firstName == None && u.name == Some(" Ann")
    ensures InitialsAsWritten(u) == "UNDEFINEDA"
    ensures |InitialsAsWritten(u)| > 2
  {
    SplitLeadingSpace();
    assert FirstOrUndefined("") + FirstOrUndefined("Ann") == "undefinedA";
    UpperUndefinedA();
  }

  lemma SplitLeadingSpace()
    ensures SplitAll(" Ann", ' ') == ["", "Ann"]
  {
    assert " Ann" == [] + [' '] + "Ann";
    SplitAllAppend([], ' ', "Ann");
    SplitAllNoSep("Ann", ' ');
  }

  lemma UpperUndefinedA()
    ensures Upper("undefinedA") == "UNDEFINEDA"
  {
    var r := Upper("undefinedA");
    assert r[0] == 'U' && r[1] == 'N' && r[2] == 'D' && r[3] == 'E' && r[4] == 'F';
    assert r[5] == 'I' && r[6] == 'N' && r[7] == 'E' && r[8] == 'D' && r[9] == 'A';
  }

  /** The non-empty pieces of a split, in order. */
  function Words(pieces: seq<string>): (r: seq<string>)
    ensures forall i :: 0 <= i < |r| ==> r[i] != ""
    ensures |r| <= |pieces|
  {
    if pieces == [] then []
    else (if pieces[0] == "" then [] else [pieces[0]]) + Words(pieces[1..])
  }

  /**
   * The initials as evidently intended: the first letters of the first and the last word
   * of the name, empty pieces skipped; a name without words falls through to the
   * username, the email and "U".
   */
  function Initials(u: ListUser): (r: string)
    ensures 1 <= |r| <= 2
    ensures Truthy(u.firstName) && Truthy(u.lastName) ==> r == Upper([u.firstName.value[0], u.lastName.value[0]])
    ensures !(Truthy(u.firstName) && Truthy(u.lastName)) && Truthy(u.name) ==>
      var words := Words(SplitAll(u.name.value, ' '));
      (|words| > 1 ==> r == Upper([words[0][0], words[|words| - 1][0]])) &&
      (|words| == 1 ==> r == Upper([words[0][0]]))
    ensures !(Truthy(u.firstName) && Truthy(u.lastName)) && (!Truthy(u.name) || Words(SplitAll(u.name.value, ' ')) == [])
      ==> r == (if u.username != "" then Upper([u.username[0]]) else if u.email != "" then Upper([u.email[0]]) else "U")
  {
    var words := if Truthy(u.name) then Words(SplitAll(u.name.value, ' ')) else [];
    if Truthy(u.firstName) && Truthy(u.lastName) then Upper([u.firstName.value[0], u.lastName.value[0]])
    else if |words| > 1 then Upper([words[0][0], words[|words| - 1][0]])
    else if |words| == 1 then Upper([words[0][0]])
    else OrElse(Or(FirstUpper(u.username), FirstUpper(u.email)), "U")
  }

  /** Where the name has no stray spaces the two versions agree. */
  lemma InitialsAgreeOnWellSpacedNames(u: ListUser)
    requires Truthy(u.name) && !(Truthy(u.firstName) && Truthy(u.lastName))
    requires forall i :: 0 <= i < |SplitAll(u.name.value, ' ')| ==> SplitAll(u.name.value, ' ')[i] != ""
    ensures Initials(u) == InitialsAsWritten(u)
  {
    WordsOfNonEmpty(SplitAll(u.name.value, ' '));
  }

  lemma {:induction false} WordsOfNonEmpty(pieces: seq<string>)
    requires forall i :: 0 <= i < |pieces| ==> pieces[i] != ""
    ensures Words(pieces) == pieces
  {
    if pieces != [] {
      WordsOfNonEmpty(pieces[1..]);
    }
  }

  /** `getUserDisplayName`: first and last name, else the first truthy of name, username, email. */
  function DisplayName(u: ListUser): (r: string)
    ensures Truthy(u.firstName) && Truthy(u.lastName) ==> r == u.firstName.value + " " + u.lastName.value
    ensures !(Truthy(u.firstName) && Truthy(u.lastName)) && Truthy(u.name) ==> r == u.name.value
    ensures !(Truthy(u.firstName) && Truthy(u.lastName)) && !Truthy(u.name) ==>
      r == (if u.username != "" then u.username else u.email)
    ensures r == "" ==> u.username == "" && u.email == ""
  {
    if Truthy(u.firstName) && Truthy(u.lastName) then u.firstName.value + " " + u.lastName.value
    else OrElse(Or(u.name, Some(u.username)), u.email)
  }

  // ---------------------------------------------------------------------------
  // "Showing a-b of n users"
  // ---------------------------------------------------------------------------

  /** The first and last position the label names for a page. */
  function RangeLabel(currentPage: nat, totalElements: int): (r: (int, int))
    ensures r.0 == currentPage * PageSize + 1
    ensures r.1 - r.0 + 1 <= PageSize
    ensures totalElements >= (currentPage + 1) * PageSize ==> r.1 - r.0 + 1 == PageSize
    ensures currentPage * PageSize < totalElements <= (currentPage + 1) * PageSize ==> r.1 == totalElements
  {
    var last := if (currentPage + 1) * PageSize < totalElements then (currentPage + 1) * PageSize else totalElements;
    (currentPage * PageSize + 1, last)
  }

  // ---------------------------------------------------------------------------
  // The dialog's state
  // ---------------------------------------------------------------------------

  class UserListDialog {
    var open: bool
    var users: seq<ListUser>
    var loading: bool
    var searchTerm: string
    var currentPage: nat
    var totalPages: int
    var totalElements: int
    /** Descriptions of the error toasts shown, oldest first. */
    var toasts: seq<string>
    /** The requests sent to the gateway, oldest first. */
    var requests: seq<HttpRequest>
    /** The users handed to `onUserSelect`, oldest first. */
    var selected: seq<ListUser>

    constructor ()
      ensures !open && users == [] && !loading && searchTerm == "" && currentPage == 0
      ensures totalPages == 0 && totalElements == 0 && toasts == [] && requests == [] && selected == []
    {
      open := false;
      users := [];
      loading := false;
      searchTerm := "";
      currentPage := 0;
      totalPages := 0;
      totalElements := 0;
      toasts := [];
      requests := [];
      selected := [];
    }

    /** The users shown: the loaded page filtered by the search box. */
    function Visible(): (r: seq<ListUser>)
      reads this
      ensures forall u :: u in r <==> u in users && Matches(u, searchTerm)
    {
      Filter(users, searchTerm)
    }

    /** The pagination bar is shown when not loading and there is more than one page. */
    predicate PaginationShown(): (shown: bool)
      reads this
      ensures shown ==> !loading && totalPages >= 2
      ensures shown ==> currentPage > 0 || currentPage < totalPages - 1
      ensures !shown ==> loading || totalPages <= 1
    {
      !loading && totalPages > 1
    }

    /**
     * `fetchUsers(page)`: one request for the page (the search term is not sent); a
     * success installs the page, a failure toasts and keeps the list as it was.
     */
    method FetchUsers(page: nat, exchange: Result<HttpResponse<UserPage>, HttpFailure>)
      modifies this
      ensures requests == old(requests) + [RequestOf(Endpoint.GetAllUsers(page, PageSize))]
      ensures !loading && open == old(open) && searchTerm == old(searchTerm) && selected == old(selected)
      ensures LoadPage(page, exchange).Ok? ==>
        Loaded(users, totalPages, totalElements, currentPage) == LoadPage(page, exchange).value && toasts == old(toasts)
      ensures LoadPage(page, exchange).Err? ==>
        users == old(users) && totalPages == old(totalPages) && totalElements == old(totalElements) &&
        currentPage == old(currentPage) && toasts == old(toasts) + [LoadPage(page, exchange).error]
    {
      loading := true;
      requests := requests + [RequestOf(Endpoint.GetAllUsers(page, PageSize))];
      var outcome := LoadPage(page, exchange);
      if outcome.Ok? {
        var loaded := outcome.value;
        users, totalPages, totalElements, currentPage := loaded.users, loaded.totalPages, loaded.totalElements, loaded.currentPage;
      } else {
        toasts := toasts + [outcome.error];
      }
      loading := false;
    }

    /** `handleNextPage`: loads the following page only when the current one is not the last. */
    method NextPage(exchange: Result<HttpResponse<UserPage>, HttpFailure>)
      modifies this
      ensures old(currentPage) < old(totalPages) - 1 ==>
        requests == old(requests) + [RequestOf(Endpoint.GetAllUsers(old(currentPage) + 1, PageSize))] &&
        (LoadPage(old(currentPage) + 1, exchange).Ok? <==> currentPage == old(currentPage) + 1)
      ensures old(currentPage) >= old(totalPages) - 1 ==>
        requests == old(requests) && users == old(users) && currentPage == old(currentPage) && toasts == old(toasts)
      ensures open == old(open) && searchTerm == old(searchTerm) && selected == old(selected)
    {
      if currentPage < totalPages - 1 {
        FetchUsers(currentPage + 1, exchange);
      }
    }

    /** `handlePrevPage`: loads the preceding page only when the current one is not the first. */
    method PrevPage(exchange: Result<HttpResponse<UserPage>, HttpFailure>)
      modifies this
      ensures old(currentPage) > 0 ==>
        requests == old(requests) + [RequestOf(Endpoint.GetAllUsers(old(currentPage) - 1, PageSize))] &&
        (LoadPage(old(currentPage) - 1, exchange).Ok? <==> currentPage == old(currentPage) - 1)
      ensures old(currentPage) == 0 ==>
        requests == old(requests) && users == old(users) && currentPage == 0 && toasts == old(toasts)
      ensures open == old(open) && searchTerm == old(searchTerm) && selected == old(selected)
    {
      if currentPage > 0 {
        FetchUsers(currentPage - 1, exchange);
      }
    }

    /** `setOpen`: opening a closed dialog loads the first page. */
    method SetOpen(value: bool, exchange: Result<HttpResponse<UserPage>, HttpFailure>)
      modifies this
      ensures open == value && searchTerm == old(searchTerm) && selected == old(selected)
      ensures value && !old(open) ==> requests == old(requests) + [RequestOf(Endpoint.GetAllUsers(0, PageSize))]
      ensures value && !old(open) && LoadPage(0, exchange).Ok? ==> currentPage == 0
      ensures !(value && !old(open)) ==> requests == old(requests) && users == old(users) && currentPage == old(currentPage)
    {
      var wasOpen := open;
      open := value;
      if value && !wasOpen {
        FetchUsers(0, exchange);
      }
    }

    /**
     * The search box changed and its 300 ms delay elapsed: while the dialog is open the
     * first page is reloaded (the term itself only filters on the client).
     */
    method SearchChanged(term: string, exchange: Result<HttpResponse<UserPage>, HttpFailure>)
      modifies this
      ensures searchTerm == term && open == old(open) && selected == old(selected)
      ensures old(open) && term != old(searchTerm) ==>
        requests == old(requests) + [RequestOf(Endpoint.GetAllUsers(0, PageSize))]
      ensures !(old(open) && term != old(searchTerm)) ==> requests == old(requests) && users == old(users)
    {
      var changed := term != searchTerm;
      searchTerm := term;
      if open && changed {
        FetchUsers(0, exchange);
      }
    }

    /** `handleUserSelect`: the user goes to the callback (when given) and the dialog closes. */
    method SelectUser(u: ListUser, hasCallback: bool)
      modifies this`selected, this`open
      ensures selected == old(selected) + (if hasCallback then [u] else [])
      ensures !open
    {
      if hasCallback {
        selected := selected + [u];
      }
      open := false;
    }
  }
}

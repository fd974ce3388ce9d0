/**
 * The REST client of the remote user API: which URL each call requests, which
 * status codes it accepts, and how it turns a response into a result or an
 * error. The transport (`rest.IRequestBuilder.Get`), JSON decoding
 * (`response.FillUp`) and `strconv.Atoi` are foreign calls, given here as
 * functions the client is built with.
 */
module Clients {
  import opened Common
  import opened Model
  import opened Decimal

  const StatusOK := 200
  const StatusNotFound := 404

  /** What the transport hands back for one GET. A non-empty `err` is a
      transport failure; the other fields are then meaningless. */
  datatype Response = Response(err: Errs, statusCode: int, header: map<string, string>, body: string)

  /** `http.Header.Get`: the value stored under `name`, or "" when absent. */
  function HeaderGet(header: map<string, string>, name: string): (v: string)
    ensures name !in header ==> v == ""
    ensures name in header ==> v == header[name]
  {
    if name in header then header[name] else ""
  }

  /** The foreign calls: the transport, `FillUp` into each target type, and
      `strconv.Atoi`. Each returns a value and an error. */
  datatype Codec = Codec(
    get: string -> Response,
    fillUsers: string -> (seq<UserResponse>, Errs),
    fillUser: string -> (UserResponse, Errs),
    fillPosts: string -> (seq<PostResponse>, Errs),
    fillTodos: string -> (seq<TodoResponse>, Errs),
    fillComments: string -> (seq<CommentResponse>, Errs),
    atoi: string -> (int, Errs))

  /** The pagination headers, in the order they are parsed. */
  const PagingHeaders: seq<string> :=
    ["X-Pagination-Limit", "X-Pagination-Page", "X-Pagination-Pages", "X-Pagination-Total"]

  // Request paths.

  /** The list URL: "?page=N" only for a positive page, "&per_page=M" only
      for a positive page size, each decided on its own. */
  function UsersURL(page: int, perPage: int): (url: string)
  {
    "/users"
    + (if page > 0 then "?page=" + Itoa(page) else "")
    + (if perPage > 0 then "&per_page=" + Itoa(perPage) else "")
  }

  function UserPath(userID: int): (path: string) { "/users/" + Itoa(userID) }

  function PostsPath(userID: int): (path: string) { "/users/" + Itoa(userID) + "/posts" }

  function CommentsPath(postID: int): (path: string) { "/posts/" + Itoa(postID) + "/comments" }

  function TodosPath(userID: int): (path: string) { "/users/" + Itoa(userID) + "/todos" }

  // Status classification.

  /** The list and detail endpoints accept only 200. */
  predicate AcceptedForEntity(statusCode: int) { statusCode == StatusOK }

  /** The child-list endpoints also accept 404 and go on to decode its body. */
  predicate AcceptedForList(statusCode: int) { statusCode == StatusOK || statusCode == StatusNotFound }

  /** What `GetUser` promises about one response: a transport error is
      returned as it is, before the status is looked at; any status but 200 is
      an error; otherwise the decoded body, or the decoder's own error
      unchanged. A result is present exactly when the error is nil. */
  ghost predicate EntityContract(resp: Response, fill: string -> (UserResponse, Errs), r: (Option<UserResponse>, Errs))
  {
    && (resp.err != [] ==> r == (None, resp.err))
    && (resp.err == [] && !AcceptedForEntity(resp.statusCode) ==> r == (None, [UnexpectedStatus(resp.statusCode)]))
    && (resp.err == [] && AcceptedForEntity(resp.statusCode) && fill(resp.body).1 != [] ==> r == (None, fill(resp.body).1))
    && (r.1 == [] <==> resp.err == [] && AcceptedForEntity(resp.statusCode) && fill(resp.body).1 == [])
    && (r.1 == [] ==> r.0 == Some(fill(resp.body).0))
    && (r.1 != [] ==> r.0 == None)
  }

  /** What `GetPosts`, `GetComments` and `GetTodos` promise about one
      response: as for an entity, but 404 is accepted like 200. */
  ghost predicate ListContract<T>(resp: Response, fill: string -> (seq<T>, Errs), r: (seq<T>, Errs))
  {
    && (resp.err != [] ==> r == ([], resp.err))
    && (resp.err == [] && !AcceptedForList(resp.statusCode) ==> r == ([], [UnexpectedStatus(resp.statusCode)]))
    && (resp.err == [] && AcceptedForList(resp.statusCode) && fill(resp.body).1 != [] ==> r == ([], fill(resp.body).1))
    && (r.1 == [] <==> resp.err == [] && AcceptedForList(resp.statusCode) && fill(resp.body).1 == [])
    && (r.1 == [] ==> r.0 == fill(resp.body).0)
    && (r.1 != [] ==> r.0 == [])
  }

  /** The shared tail of the three child-list calls. */
  function ReceiveList<T>(resp: Response, fill: string -> (seq<T>, Errs)): (r: (seq<T>, Errs))
    ensures ListContract(resp, fill, r)
  {
    if resp.err != [] then ([], resp.err)
    else if !AcceptedForList(resp.statusCode) then ([], [UnexpectedStatus(resp.statusCode)])
    else
      var (decoded, err) := fill(resp.body);
      if err != [] then ([], err) else (decoded, [])
  }

  /** `UserClient`, built on the foreign calls in `codec`. */
  datatype UserClient = UserClient(codec: Codec) {

    /** `GetUsers(page, perPage)`: one page of users with the four pagination
        headers. Nil result with the first error met: transport, status,
        decoding, then the headers in the order Limit, Page, Pages, Total. */
    method GetUsers(page: int, perPage: int) returns (r: Option<PagedResultResponse<UserResponse>>, err: Errs)
      ensures var resp := codec.get(UsersURL(page, perPage));
        && (resp.err != [] ==> r == None && err == resp.err)
        && (resp.err == [] && !AcceptedForEntity(resp.statusCode) ==> r == None && err == [UnexpectedStatus(resp.statusCode)])
      ensures r.Some? <==> err == []
      ensures var resp := codec.get(UsersURL(page, perPage));
        var decoded := codec.fillUsers(resp.body);
        resp.err == [] && AcceptedForEntity(resp.statusCode) ==>
          && (decoded.1 != [] ==> err == decoded.1)
          && (decoded.1 == [] && err != [] ==>
                exists k :: 0 <= k < 4 && err == codec.atoi(HeaderGet(resp.header, PagingHeaders[k])).1
                  && forall j :: 0 <= j < k ==> codec.atoi(HeaderGet(resp.header, PagingHeaders[j])).1 == [])
      ensures r.Some? ==>
        var resp := codec.get(UsersURL(page, perPage));
        var parsed := k requires 0 <= k < 4 => codec.atoi(HeaderGet(resp.header, PagingHeaders[k]));
        && resp.err == [] && AcceptedForEntity(resp.statusCode) && codec.fillUsers(resp.body).1 == []
        && (forall k :: 0 <= k < 4 ==> parsed(k).1 == [])
        && r.value == PagedResultResponse(parsed(0).0, parsed(1).0, parsed(2).0, parsed(3).0, codec.fillUsers(resp.body).0)
    {
      var apiURL := "/users";
      if page > 0 {
        apiURL := apiURL + "?page=" + Itoa(page);
      }
      if perPage > 0 {
        apiURL := apiURL + "&per_page=" + Itoa(perPage);
      }
      assert apiURL == UsersURL(page, perPage);

      var response := codec.get(apiURL);
      if response.err != [] {
        return None, response.err;
      }
      if response.statusCode != StatusOK {
        return None, [UnexpectedStatus(response.statusCode)];
      }

      var userResponses, fillErr := codec.fillUsers(response.body).0, codec.fillUsers(response.body).1;
      if fillErr != [] {
        return None, fillErr;
      }

      var limit, limitErr := codec.atoi(HeaderGet(response.header, "X-Pagination-Limit")).0,
                             codec.atoi(HeaderGet(response.header, "X-Pagination-Limit")).1;
      assert limitErr == codec.atoi(HeaderGet(response.header, PagingHeaders[0])).1;
      if limitErr != [] {
        return None, limitErr;
      }
      var pageNumber, pageErr := codec.atoi(HeaderGet(response.header, "X-Pagination-Page")).0,
                                 codec.atoi(HeaderGet(response.header, "X-Pagination-Page")).1;
      assert pageErr == codec.atoi(HeaderGet(response.header, PagingHeaders[1])).1;
      if pageErr != [] {
        return None, pageErr;
      }
      var pages, pagesErr := codec.atoi(HeaderGet(response.header, "X-Pagination-Pages")).0,
                             codec.atoi(HeaderGet(response.header, "X-Pagination-Pages")).1;
      assert pagesErr == codec.atoi(HeaderGet(response.header, PagingHeaders[2])).1;
      if pagesErr != [] {
        return None, pagesErr;
      }
      var total, totalErr := codec.atoi(HeaderGet(response.header, "X-Pagination-Total")).0,
                             codec.atoi(HeaderGet(response.header, "X-Pagination-Total")).1;
      assert totalErr == codec.atoi(HeaderGet(response.header, PagingHeaders[3])).1;
      if totalErr != [] {
        return None, totalErr;
      }

      return Some(PagedResultResponse(limit, pageNumber, pages, total, userResponses)), [];
    }

    /** `GetUser(userID)`: the detail of one user. */
    function GetUser(userID: int): (r: (Option<UserResponse>, Errs))
      ensures EntityContract(codec.get(UserPath(userID)), codec.fillUser, r)
    {
      var response := codec.get(UserPath(userID));
      if response.err != [] then (None, response.err)
      else if !AcceptedForEntity(response.statusCode) then (None, [UnexpectedStatus(response.statusCode)])
      else
        var (user, err) := codec.fillUser(response.body);
        if err != [] then (None, err) else (Some(user), [])
    }

    /** `GetPosts(userID)`: the posts of one user. */
    function GetPosts(userID: int): (r: (seq<PostResponse>, Errs))
      ensures ListContract(codec.get(PostsPath(userID)), codec.fillPosts, r)
    {
      ReceiveList(codec.get(PostsPath(userID)), codec.fillPosts)
    }

    /** `GetComments(postID)`: the comments of one post. */
    function GetComments(postID: int): (r: (seq<CommentResponse>, Errs))
      ensures ListContract(codec.get(CommentsPath(postID)), codec.fillComments, r)
    {
      ReceiveList(codec.get(CommentsPath(postID)), codec.fillComments)
    }

    /** `GetTodos(userID)`: the todos of one user. */
    function GetTodos(userID: int): (r: (seq<TodoResponse>, Errs))
      ensures ListContract(codec.get(TodosPath(userID)), codec.fillTodos, r)
    {
      ReceiveList(codec.get(TodosPath(userID)), codec.fillTodos)
    }
  }

  /** The detail call never returns a nil user without an error, which is
      what the service relies on when it dereferences the result. The list
      call promises the same through `GetUsers`'s `r.Some? <==> err == []`. */
  lemma UserClientHasNoNilUser(c: UserClient)
    ensures forall id :: c.GetUser(id).1 == [] ==> c.GetUser(id).0.Some?
  {
    forall id | c.GetUser(id).1 == [] ensures c.GetUser(id).0.Some? {
      assert EntityContract(c.codec.get(UserPath(id)), c.codec.fillUser, c.GetUser(id));
    }
  }

  /** `IUserClient`: the calls the service makes, each returning a value and
      an error. The service is written against this interface (its tests use
      a mock), so it is modelled for every implementation. */
  datatype UserClientApi = UserClientApi(
    getUsers: (int, int) -> (Option<PagedResultResponse<UserResponse>>, Errs),
    getUser: int -> (Option<UserResponse>, Errs),
    getPosts: int -> (seq<PostResponse>, Errs),
    getTodos: int -> (seq<TodoResponse>, Errs),
    getComments: int -> (seq<CommentResponse>, Errs))

  // Facts about the request paths.

  /** The list URL carries a '?' exactly when the page is positive and a '&'
      exactly when the page size is positive, so a page size without a page
      gives "/users&per_page=M", with no '?' at all. */
  lemma UsersURLQuery(page: int, perPage: int)
    ensures '?' in UsersURL(page, perPage) <==> page > 0
    ensures '&' in UsersURL(page, perPage) <==> perPage > 0
    ensures page <= 0 && perPage > 0 ==> UsersURL(page, perPage) == "/users&per_page=" + Itoa(perPage)
  {
    var p := if page > 0 then "?page=" + Itoa(page) else "";
    var q := if perPage > 0 then "&per_page=" + Itoa(perPage) else "";
    assert UsersURL(page, perPage) == "/users" + p + q;
    assert '?' !in "/users" && '&' !in "/users";
    QueryPart("?page=", page, '?', '&');
    QueryPart("&per_page=", perPage, '&', '?');
  }

  /** A query parameter written only for a positive value: it holds its
      leading separator `c` exactly when written, and never `other`. */
  lemma QueryPart(name: string, n: int, c: char, other: char)
    requires |name| > 0 && name[0] == c && other !in name
    requires !IsDigit(c) && c != '-' && !IsDigit(other) && other != '-'
    ensures var part := if n > 0 then name + Itoa(n) else "";
      (c in part <==> n > 0) && other !in part
  {
    if n > 0 {
      NotInItoa(n, other);
      assert (name + Itoa(n))[0] == c;
    }
  }

  lemma NotInItoa(n: int, c: char)
    requires !IsDigit(c) && c != '-'
    ensures c !in Itoa(n)
  {
    ItoaCharacters(n);
  }

  lemma ItoaHasNoSlash(n: int)
    ensures '/' !in Itoa(n) && |Itoa(n)| >= 1
    ensures IsDigit(Itoa(n)[|Itoa(n)| - 1])
  {
    ItoaCharacters(n);
    ItoaRoundTrip(n);
    if n < 0 {
      DigitsRoundTrip(-n);
      assert Itoa(n)[|Itoa(n)| - 1] == Digits(-n)[|Digits(-n)| - 1];
    }
  }

  /** Each path names the identifier it was built from. */
  lemma PathsInjective(a: int, b: int)
    ensures UserPath(a) == UserPath(b) ==> a == b
    ensures PostsPath(a) == PostsPath(b) ==> a == b
    ensures CommentsPath(a) == CommentsPath(b) ==> a == b
    ensures TodosPath(a) == TodosPath(b) ==> a == b
  {
    var x, y := Itoa(a), Itoa(b);
    if UserPath(a) == UserPath(b) {
      assert x == UserPath(a)[7..] && y == UserPath(b)[7..];
      ItoaInjective(a, b);
    }
    if PostsPath(a) == PostsPath(b) {
      assert |x| == |y|;
      assert x == PostsPath(a)[7..7 + |x|] && y == PostsPath(b)[7..7 + |y|];
      ItoaInjective(a, b);
    }
    if CommentsPath(a) == CommentsPath(b) {
      assert |x| == |y|;
      assert x == CommentsPath(a)[7..7 + |x|] && y == CommentsPath(b)[7..7 + |y|];
      ItoaInjective(a, b);
    }
    if TodosPath(a) == TodosPath(b) {
      assert |x| == |y|;
      assert x == TodosPath(a)[7..7 + |x|] && y == TodosPath(b)[7..7 + |y|];
      ItoaInjective(a, b);
    }
  }

  /** No two endpoints share a request path, whatever the identifiers. */
  lemma PathsDistinct(a: int, b: int, page: int, perPage: int)
    ensures UserPath(a) != PostsPath(b) && UserPath(a) != TodosPath(b) && UserPath(a) != CommentsPath(b)
    ensures PostsPath(a) != TodosPath(b) && PostsPath(a) != CommentsPath(b) && TodosPath(a) != CommentsPath(b)
    ensures UsersURL(page, perPage) != UserPath(a) && UsersURL(page, perPage) != PostsPath(a)
    ensures UsersURL(page, perPage) != TodosPath(a) && UsersURL(page, perPage) != CommentsPath(a)
  {
    ItoaHasNoSlash(a);
    var u := UserPath(a);
    assert IsDigit(u[|u| - 1]);
    assert PostsPath(b)[|PostsPath(b)| - 1] == 's';
    assert TodosPath(b)[|TodosPath(b)| - 1] == 's';
    assert CommentsPath(b)[1] == 'p' && u[1] == 'u';
    assert PostsPath(a)[1] == 'u' && TodosPath(a)[1] == 'u';
    assert PostsPath(a)[|PostsPath(a)| - 2] == 't' && TodosPath(b)[|TodosPath(b)| - 2] == 'o';
    var url := UsersURL(page, perPage);
    assert |url| == 6 || url[6] == '?' || url[6] == '&';
    assert u[6] == '/' && PostsPath(a)[6] == '/' && TodosPath(a)[6] == '/';
    assert url[1] == 'u';
  }
}

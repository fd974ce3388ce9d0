/**
 * `UsersService`: the aggregation behind the users endpoint. One page of
 * users is listed, then three branches run over it (each user's detail, each
 * user's posts with their comments, each user's todos) and a combinator
 * joins their outputs into a list of users sorted by id.
 *
 * Every branch sends one message per input on a channel and a consumer reads
 * them in whatever order they arrive; that order is a nondeterministic choice
 * here (any permutation of what was sent), so every promise about a branch
 * holds for all arrival orders.
 */
module Services {
  import opened Common
  import opened Seqs
  import opened Sorting
  import opened Model
  import opened Clients
  import Tpl

  // Response to DTO, field for field.

  function ToUserDTO(u: UserResponse): UserDTO
  {
    UserDTO(u.id, u.name, u.email, u.gender, u.status, [], [])
  }

  function ToPostDTO(p: PostResponse): PostDTO
  {
    PostDTO(p.id, p.userID, p.title, p.body, [])
  }

  function ToTodoDTO(t: TodoResponse): TodoDTO
  {
    TodoDTO(t.id, t.userID, t.title, t.dueOn, t.status)
  }

  function ToCommentDTO(c: CommentResponse): CommentDTO
  {
    CommentDTO(c.id, c.postID, c.name, c.email, c.body)
  }

  /** A user without its posts and todos, a post without its comments: what
      the fetches produce before the joins fill them in. */
  function BareUser(u: UserDTO): UserDTO { u.(posts := [], todos := []) }

  function BarePost(p: PostDTO): PostDTO { p.(comments := []) }

  /** The client is never asked for more than it promises: a call that
      returns no error returns a user or a page (the code dereferences them). */
  ghost predicate NoNilResults(api: UserClientApi)
  {
    && (forall page, perPage :: api.getUsers(page, perPage).1 == [] ==> api.getUsers(page, perPage).0.Some?)
    && (forall id :: api.getUser(id).1 == [] ==> api.getUser(id).0.Some?)
  }

  // The message each producer sends for one input.

  function UserFetcher(api: UserClientApi): UserResponse -> Tpl.Task<Option<UserResponse>>
  {
    (u: UserResponse) => Tpl.ToTask(() => api.getUser(u.id))
  }

  function PostFetcher(api: UserClientApi): UserResponse -> Tpl.Task<seq<PostResponse>>
  {
    (u: UserResponse) => Tpl.ToTask(() => api.getPosts(u.id))
  }

  function TodoFetcher(api: UserClientApi): UserResponse -> Tpl.Task<seq<TodoResponse>>
  {
    (u: UserResponse) => Tpl.ToTask(() => api.getTodos(u.id))
  }

  function CommentFetcher(api: UserClientApi): PostDTO -> Tpl.Task<seq<CommentResponse>>
  {
    (p: PostDTO) => Tpl.ToTask(() => api.getComments(p.id))
  }

  // What a consumer keeps from one message: nothing from a failed one.

  function UserOf(t: Tpl.Task<Option<UserResponse>>): (r: seq<UserDTO>)
  {
    if t.err == [] && t.result.Some? then [ToUserDTO(t.result.value)] else []
  }

  function PostsOf(t: Tpl.Task<seq<PostResponse>>): (r: seq<PostDTO>)
  {
    if t.err == [] then Map(ToPostDTO, t.result) else []
  }

  function TodosOf(t: Tpl.Task<seq<TodoResponse>>): (r: seq<TodoDTO>)
  {
    if t.err == [] then Map(ToTodoDTO, t.result) else []
  }

  function CommentsOf(t: Tpl.Task<seq<CommentResponse>>): (r: seq<CommentDTO>)
  {
    if t.err == [] then Map(ToCommentDTO, t.result) else []
  }

  function ErrOf<T>(t: Tpl.Task<T>): Errs { t.err }

  // Reference results: what each branch collects when every fetch is
  // delivered in input order.

  function FetchedUsers(api: UserClientApi, us: seq<UserResponse>): (r: seq<UserDTO>)
  {
    FlatMap(UserOf, Map(UserFetcher(api), us))
  }

  function FetchedPosts(api: UserClientApi, us: seq<UserResponse>): (r: seq<PostDTO>)
  {
    FlatMap(PostsOf, Map(PostFetcher(api), us))
  }

  function FetchedTodos(api: UserClientApi, us: seq<UserResponse>): (r: seq<TodoDTO>)
  {
    FlatMap(TodosOf, Map(TodoFetcher(api), us))
  }

  function FetchedComments(api: UserClientApi, posts: seq<PostDTO>): (r: seq<CommentDTO>)
  {
    FlatMap(CommentsOf, Map(CommentFetcher(api), posts))
  }

  /** The position of the first failed message, or the length when none failed. */
  function FirstFailure<T>(ts: seq<Tpl.Task<T>>): (n: nat)
    ensures n <= |ts|
    ensures forall j :: 0 <= j < n ==> ts[j].err == []
    ensures n < |ts| ==> ts[n].err != []
    decreases |ts|
  {
    if ts == [] || ts[0].err != [] then 0 else 1 + FirstFailure(ts[1..])
  }

  // Consumers: the loops that read the channel.

  /** The consumer of `getUsers`: a failed message adds its error and is
      skipped; reading goes on. */
  method ConsumeUsers(arrivals: seq<Tpl.Task<Option<UserResponse>>>) returns (users: seq<UserDTO>, aggErr: Errs)
    requires forall k :: 0 <= k < |arrivals| && arrivals[k].err == [] ==> arrivals[k].result.Some?
    ensures users == FlatMap(UserOf, arrivals)
    ensures aggErr == FlatMap(ErrOf, arrivals)
  {
    users, aggErr := [], [];
    for i := 0 to |arrivals|
      invariant users == FlatMap(UserOf, arrivals[..i])
      invariant aggErr == FlatMap(ErrOf, arrivals[..i])
    {
      var task := arrivals[i];
      assert arrivals[..i + 1][..i] == arrivals[..i];
      if task.err != [] {
        aggErr := Append(aggErr, task.err);
        continue;
      }
      var userDTO := ToUserDTO(task.result.value);
      users := users + [userDTO];
    }
    assert arrivals[..|arrivals|] == arrivals;
  }

  /** The consumer of `getPosts`: like the users consumer, a failed message
      is skipped and reading goes on. */
  method ConsumePosts(arrivals: seq<Tpl.Task<seq<PostResponse>>>) returns (posts: seq<PostDTO>, aggErr: Errs)
    ensures posts == FlatMap(PostsOf, arrivals)
    ensures aggErr == FlatMap(ErrOf, arrivals)
  {
    posts, aggErr := [], [];
    for i := 0 to |arrivals|
      invariant posts == FlatMap(PostsOf, arrivals[..i])
      invariant aggErr == FlatMap(ErrOf, arrivals[..i])
    {
      var task := arrivals[i];
      assert arrivals[..i + 1][..i] == arrivals[..i];
      if task.err != [] {
        aggErr := Append(aggErr, task.err);
        continue;
      }
      var before := posts;
      for k := 0 to |task.result|
        invariant posts == before + Map(ToPostDTO, task.result[..k])
      {
        assert Map(ToPostDTO, task.result[..k + 1]) == Map(ToPostDTO, task.result[..k]) + [ToPostDTO(task.result[k])];
        posts := posts + [ToPostDTO(task.result[k])];
      }
      assert task.result[..|task.result|] == task.result;
    }
    assert arrivals[..|arrivals|] == arrivals;
  }

  /** The consumer of `getTodos`: the first failed message adds its error and
      ends the reading; the messages after it are left unread. */
  method ConsumeTodos(arrivals: seq<Tpl.Task<seq<TodoResponse>>>) returns (todos: seq<TodoDTO>, aggErr: Errs)
    ensures todos == FlatMap(TodosOf, arrivals[..FirstFailure(arrivals)])
    ensures FirstFailure(arrivals) < |arrivals| ==> aggErr == arrivals[FirstFailure(arrivals)].err
    ensures FirstFailure(arrivals) == |arrivals| ==> aggErr == []
  {
    todos, aggErr := [], [];
    for i := 0 to |arrivals|
      invariant forall j :: 0 <= j < i ==> arrivals[j].err == []
      invariant todos == FlatMap(TodosOf, arrivals[..i])
      invariant aggErr == []
    {
      var task := arrivals[i];
      assert arrivals[..i + 1][..i] == arrivals[..i];
      if task.err != [] {
        aggErr := Append(aggErr, task.err);
        return;
      }
      var before := todos;
      for k := 0 to |task.result|
        invariant todos == before + Map(ToTodoDTO, task.result[..k])
      {
        assert Map(ToTodoDTO, task.result[..k + 1]) == Map(ToTodoDTO, task.result[..k]) + [ToTodoDTO(task.result[k])];
        todos := todos + [ToTodoDTO(task.result[k])];
      }
      assert task.result[..|task.result|] == task.result;
    }
    assert arrivals[..|arrivals|] == arrivals;
  }

  /** The consumer of `getComments`: stops at the first failed message, like
      the todos consumer. */
  method ConsumeComments(arrivals: seq<Tpl.Task<seq<CommentResponse>>>) returns (comments: seq<CommentDTO>, aggErr: Errs)
    ensures comments == FlatMap(CommentsOf, arrivals[..FirstFailure(arrivals)])
    ensures FirstFailure(arrivals) < |arrivals| ==> aggErr == arrivals[FirstFailure(arrivals)].err
    ensures FirstFailure(arrivals) == |arrivals| ==> aggErr == []
  {
    comments, aggErr := [], [];
    for i := 0 to |arrivals|
      invariant forall j :: 0 <= j < i ==> arrivals[j].err == []
      invariant comments == FlatMap(CommentsOf, arrivals[..i])
      invariant aggErr == []
    {
      var commentTask := arrivals[i];
      assert arrivals[..i + 1][..i] == arrivals[..i];
      if commentTask.err != [] {
        aggErr := Append(aggErr, commentTask.err);
        return;
      }
      var before := comments;
      for k := 0 to |commentTask.result|
        invariant comments == before + Map(ToCommentDTO, commentTask.result[..k])
      {
        assert Map(ToCommentDTO, commentTask.result[..k + 1])
            == Map(ToCommentDTO, commentTask.result[..k]) + [ToCommentDTO(commentTask.result[k])];
        comments := comments + [ToCommentDTO(commentTask.result[k])];
      }
      assert commentTask.result[..|commentTask.result|] == commentTask.result;
    }
    assert arrivals[..|arrivals|] == arrivals;
  }

  // Facts about consumers over any arrival order.

  /** A consumer that skips failures collects, in any arrival order, the same
      multiset, and ends without error exactly when no message failed. */
  lemma SkippingConsumer<T, B>(g: Tpl.Task<T> -> seq<B>, arrivals: seq<Tpl.Task<T>>, sent: seq<Tpl.Task<T>>)
    requires multiset(arrivals) == multiset(sent)
    ensures multiset(FlatMap(g, arrivals)) == multiset(FlatMap(g, sent))
    ensures multiset(FlatMap(ErrOf, arrivals)) == multiset(FlatMap(ErrOf, sent))
    ensures FlatMap(ErrOf, arrivals) == [] <==> forall t :: t in sent ==> t.err == []
  {
    FlatMapPermutation(g, arrivals, sent);
    FlatMapPermutation(ErrOf, arrivals, sent);
    FlatMapEmpty(ErrOf, sent);
    assert FlatMap(ErrOf, arrivals) == [] <==> FlatMap(ErrOf, sent) == [] by {
      assert |FlatMap(ErrOf, arrivals)| == |multiset(FlatMap(ErrOf, arrivals))|;
      assert |FlatMap(ErrOf, sent)| == |multiset(FlatMap(ErrOf, sent))|;
    }
  }

  /** A consumer that stops at the first failure, in any arrival order: it
      reaches the end exactly when no message failed, and then collects the
      same multiset as in input order; otherwise it stops at a message that
      was sent, having collected part of that multiset. */
  lemma StoppingConsumer<T, B>(g: Tpl.Task<T> -> seq<B>, arrivals: seq<Tpl.Task<T>>, sent: seq<Tpl.Task<T>>)
    requires multiset(arrivals) == multiset(sent)
    ensures FirstFailure(arrivals) == |arrivals| <==> forall t :: t in sent ==> t.err == []
    ensures FirstFailure(arrivals) < |arrivals| ==> arrivals[FirstFailure(arrivals)] in sent
    ensures multiset(FlatMap(g, arrivals[..FirstFailure(arrivals)])) <= multiset(FlatMap(g, sent))
    ensures FirstFailure(arrivals) == |arrivals| ==>
      multiset(FlatMap(g, arrivals[..FirstFailure(arrivals)])) == multiset(FlatMap(g, sent))
  {
    var n := FirstFailure(arrivals);
    assert forall t :: t in arrivals <==> t in sent by {
      forall t ensures t in arrivals <==> t in sent {
        assert t in arrivals <==> t in multiset(arrivals);
      }
    }
    if n == |arrivals| {
      forall t | t in sent ensures t.err == [] {
        var j :| 0 <= j < |arrivals| && arrivals[j] == t;
      }
    }
    FlatMapPrefix(g, arrivals, n);
    FlatMapPermutation(g, arrivals, sent);
    assert arrivals[..|arrivals|] == arrivals;
  }

  // The branches, each run as its producer followed by its consumer.

  /** `getUsers`: fetches every user's detail. Collects the users whose fetch
      succeeded and every error; fails exactly when some fetch failed. */
  method GetUsersBranch(api: UserClientApi, userResponses: seq<UserResponse>, numCPU: int)
    returns (users: seq<UserDTO>, aggErr: Errs)
    requires NoNilResults(api)
    ensures multiset(users) == multiset(FetchedUsers(api, userResponses))
    ensures multiset(aggErr) == multiset(FlatMap(ErrOf, Map(UserFetcher(api), userResponses)))
    ensures aggErr == [] <==> forall u :: u in userResponses ==> api.getUser(u.id).1 == []
  {
    var pool := new Tpl.Pool();
    pool := pool.WithMaxGoroutines(2);
    var degree, sent := Tpl.ForEach(userResponses, UserFetcher(api), numCPU, [numCPU - 1]);
    var arrivals: seq<Tpl.Task<Option<UserResponse>>> :| multiset(arrivals) == multiset(sent);
    forall k | 0 <= k < |arrivals| && arrivals[k].err == [] ensures arrivals[k].result.Some? {
      assert arrivals[k] in multiset(sent);
    }
    users, aggErr := ConsumeUsers(arrivals);
    SkippingConsumer(UserOf, arrivals, sent);
    SentUserErrors(api, userResponses);
  }

  /** `getTodos`: fetches every user's todos and stops at the first failure.
      Without error it has collected every todo; with one, the error is that
      of a failed fetch and what was collected is part of every todo. */
  method GetTodosBranch(api: UserClientApi, userResponses: seq<UserResponse>, numCPU: int)
    returns (todos: seq<TodoDTO>, aggErr: Errs)
    ensures aggErr == [] <==> forall u :: u in userResponses ==> api.getTodos(u.id).1 == []
    ensures aggErr == [] ==> multiset(todos) == multiset(FetchedTodos(api, userResponses))
    ensures aggErr != [] ==> exists u :: u in userResponses && aggErr == api.getTodos(u.id).1
    ensures multiset(todos) <= multiset(FetchedTodos(api, userResponses))
  {
    var pool := new Tpl.Pool();
    pool := pool.WithMaxGoroutines(2);
    var degree, sent := Tpl.ForEach(userResponses, TodoFetcher(api), numCPU, [numCPU - 1]);
    var arrivals: seq<Tpl.Task<seq<TodoResponse>>> :| multiset(arrivals) == multiset(sent);
    todos, aggErr := ConsumeTodos(arrivals);
    StoppingConsumer(TodosOf, arrivals, sent);
    SentTodoErrors(api, userResponses);
    if aggErr != [] {
      var j :| 0 <= j < |sent| && sent[j] == arrivals[FirstFailure(arrivals)];
      assert userResponses[j] in userResponses;
    }
  }

  /** `getComments`: fetches every post's comments and stops at the first
      failure, like `getTodos`. */
  method GetCommentsBranch(api: UserClientApi, posts: seq<PostDTO>, numCPU: int)
    returns (comments: seq<CommentDTO>, aggErr: Errs)
    ensures aggErr == [] <==> forall p :: p in posts ==> api.getComments(p.id).1 == []
    ensures aggErr == [] ==> multiset(comments) == multiset(FetchedComments(api, posts))
    ensures aggErr != [] ==> exists p :: p in posts && aggErr == api.getComments(p.id).1
    ensures multiset(comments) <= multiset(FetchedComments(api, posts))
  {
    var pool := new Tpl.Pool();
    pool := pool.WithMaxGoroutines(2);
    var degree, sent := Tpl.ForEach(posts, CommentFetcher(api), numCPU, [numCPU - 1]);
    var arrivals: seq<Tpl.Task<seq<CommentResponse>>> :| multiset(arrivals) == multiset(sent);
    comments, aggErr := ConsumeComments(arrivals);
    StoppingConsumer(CommentsOf, arrivals, sent);
    SentCommentErrors(api, posts);
    if aggErr != [] {
      var j :| 0 <= j < |sent| && sent[j] == arrivals[FirstFailure(arrivals)];
      assert posts[j] in posts;
    }
  }

  /** The message sent for an input carries the error of the client call. */
  lemma SentUserErrors(api: UserClientApi, us: seq<UserResponse>)
    ensures forall i :: 0 <= i < |us| ==> Map(UserFetcher(api), us)[i].err == api.getUser(us[i].id).1
    ensures (forall t :: t in Map(UserFetcher(api), us) ==> t.err == []) <==> forall u :: u in us ==> api.getUser(u.id).1 == []
  {
  }

  lemma SentPostErrors(api: UserClientApi, us: seq<UserResponse>)
    ensures forall i :: 0 <= i < |us| ==> Map(PostFetcher(api), us)[i].err == api.getPosts(us[i].id).1
    ensures (forall t :: t in Map(PostFetcher(api), us) ==> t.err == []) <==> forall u :: u in us ==> api.getPosts(u.id).1 == []
  {
  }

  lemma SentTodoErrors(api: UserClientApi, us: seq<UserResponse>)
    ensures forall i :: 0 <= i < |us| ==> Map(TodoFetcher(api), us)[i].err == api.getTodos(us[i].id).1
    ensures (forall t :: t in Map(TodoFetcher(api), us) ==> t.err == []) <==> forall u :: u in us ==> api.getTodos(u.id).1 == []
  {
  }

  lemma SentCommentErrors(api: UserClientApi, posts: seq<PostDTO>)
    ensures forall i :: 0 <= i < |posts| ==> Map(CommentFetcher(api), posts)[i].err == api.getComments(posts[i].id).1
    ensures (forall t :: t in Map(CommentFetcher(api), posts) ==> t.err == []) <==> forall p :: p in posts ==> api.getComments(p.id).1 == []
  {
  }

  /** Every post a branch collects starts without comments, every user
      without posts or todos. */
  lemma FetchedAreBare(api: UserClientApi, us: seq<UserResponse>)
    ensures forall p :: p in FetchedPosts(api, us) ==> p.comments == []
    ensures forall u :: u in FetchedUsers(api, us) ==> u.posts == [] && u.todos == []
  {
    forall p | p in FetchedPosts(api, us) ensures p.comments == [] {
      FlatMapMembers(PostsOf, Map(PostFetcher(api), us), p);
    }
    forall u | u in FetchedUsers(api, us) ensures u.posts == [] && u.todos == [] {
      FlatMapMembers(UserOf, Map(UserFetcher(api), us), u);
    }
  }

  lemma SameMembers<T>(a: seq<T>, b: seq<T>)
    requires multiset(a) == multiset(b)
    ensures forall x :: x in a <==> x in b
  {
    forall x ensures x in a <==> x in b {
      assert x in a <==> x in multiset(a);
      assert x in b <==> x in multiset(b);
    }
  }

  /** Which comments are fetched does not depend on the order of the posts. */
  lemma FetchedCommentsPermutation(api: UserClientApi, a: seq<PostDTO>, b: seq<PostDTO>)
    requires multiset(a) == multiset(b)
    ensures multiset(FetchedComments(api, a)) == multiset(FetchedComments(api, b))
  {
    MapPermutation(CommentFetcher(api), a, b);
    FlatMapPermutation(CommentsOf, Map(CommentFetcher(api), a), Map(CommentFetcher(api), b));
  }

  // Attaching comments to posts.

  /** One post with the comments whose post id is its id appended to those it
      has, sorted by comment id. */
  function WithComments(comments: seq<CommentDTO>): PostDTO -> PostDTO
  {
    (p: PostDTO) => p.(comments := SortBy(p.comments + FilterByKey(comments, CommentPostId, p.id), CommentId))
  }

  function AttachComments(posts: seq<PostDTO>, comments: seq<CommentDTO>): (r: seq<PostDTO>)
  {
    Map(WithComments(comments), posts)
  }

  /** Each post keeps its fields and position, and ends with its own comments
      and exactly the matching ones, sorted by id. */
  lemma AttachCommentsSpec(posts: seq<PostDTO>, comments: seq<CommentDTO>)
    ensures |AttachComments(posts, comments)| == |posts|
    ensures forall i :: 0 <= i < |posts| ==>
      && BarePost(AttachComments(posts, comments)[i]) == BarePost(posts[i])
      && SortedBy(AttachComments(posts, comments)[i].comments, CommentId)
      && multiset(AttachComments(posts, comments)[i].comments)
         == multiset(posts[i].comments) + multiset(FilterByKey(comments, CommentPostId, posts[i].id))
  {
    forall i | 0 <= i < |posts|
      ensures SortedBy(AttachComments(posts, comments)[i].comments, CommentId)
      ensures multiset(AttachComments(posts, comments)[i].comments)
         == multiset(posts[i].comments) + multiset(FilterByKey(comments, CommentPostId, posts[i].id))
    {
      SortBySortedPermutation(posts[i].comments + FilterByKey(comments, CommentPostId, posts[i].id), CommentId);
    }
  }

  /** The attaching loop of `getPosts`: for each post, scan the comments for
      its id, then sort the post's comments in place. */
  method AttachCommentsLoop(posts: seq<PostDTO>, comments: seq<CommentDTO>) returns (r: seq<PostDTO>)
    ensures r == AttachComments(posts, comments)
  {
    r := posts;
    for i := 0 to |r|
      invariant |r| == |posts|
      invariant forall j :: 0 <= j < i ==> r[j] == WithComments(comments)(posts[j])
      invariant forall j :: i <= j < |r| ==> r[j] == posts[j]
    {
      var post := r[i];
      var postComments := post.comments;
      for k := 0 to |comments|
        invariant postComments == post.comments + FilterByKey(comments[..k], CommentPostId, post.id)
      {
        FilterByKeyStep(comments, CommentPostId, post.id, k);
        if post.id == comments[k].postID {
          postComments := postComments + [comments[k]];
        }
      }
      assert comments[..|comments|] == comments;
      var a := new CommentDTO[|postComments|](j requires 0 <= j < |postComments| => postComments[j]);
      assert a[..] == postComments;
      SortInPlace(a, CommentId);
      r := r[i := post.(comments := a[..])];
    }
  }

  // Joining users with their posts and todos.

  /** One user with the posts and the todos whose user id is its id, in the
      order they were collected. */
  function WithPostsAndTodos(posts: seq<PostDTO>, todos: seq<TodoDTO>): UserDTO -> UserDTO
  {
    (u: UserDTO) => u.(posts := FilterByKey(posts, PostUserId, u.id), todos := FilterByKey(todos, TodoUserId, u.id))
  }

  /** The combinator's join: every user gets its posts and todos, then the
      users are sorted by id. */
  function JoinUsers(users: seq<UserDTO>, posts: seq<PostDTO>, todos: seq<TodoDTO>): (r: seq<UserDTO>)
  {
    SortBy(Map(WithPostsAndTodos(posts, todos), users), UserId)
  }

  /** The joined list is sorted by id, holds the same users, and each user
      holds exactly the posts and the todos that name it. */
  lemma JoinUsersSpec(users: seq<UserDTO>, posts: seq<PostDTO>, todos: seq<TodoDTO>)
    ensures SortedBy(JoinUsers(users, posts, todos), UserId)
    ensures |JoinUsers(users, posts, todos)| == |users|
    ensures multiset(Map(BareUser, JoinUsers(users, posts, todos))) == multiset(Map(BareUser, users))
    ensures forall u :: u in JoinUsers(users, posts, todos) ==>
      u.posts == FilterByKey(posts, PostUserId, u.id) && u.todos == FilterByKey(todos, TodoUserId, u.id)
  {
    var joined := Map(WithPostsAndTodos(posts, todos), users);
    var sorted := SortBy(joined, UserId);
    SortBySortedPermutation(joined, UserId);
    assert multiset(Map(BareUser, sorted)) == multiset(Map(BareUser, users)) by {
      MapPermutation(BareUser, sorted, joined);
      assert Map(BareUser, joined) == Map(BareUser, users);
    }
    forall u | u in sorted
      ensures u.posts == FilterByKey(posts, PostUserId, u.id) && u.todos == FilterByKey(todos, TodoUserId, u.id)
    {
      assert u in multiset(joined) by {
        assert u in multiset(sorted);
      }
      var i :| 0 <= i < |joined| && joined[i] == u;
    }
  }

  /** A post is attached by its own user id, not by the user it was fetched
      for: every attached post names its user, and a post naming no listed
      user is attached to nobody. */
  lemma PostsFollowTheirUserId(users: seq<UserDTO>, posts: seq<PostDTO>, todos: seq<TodoDTO>)
    ensures forall u, p :: u in JoinUsers(users, posts, todos) && p in u.posts ==> p in posts && p.userID == u.id
    ensures forall p, u ::
              p in posts && (forall v :: v in users ==> v.id != p.userID) && u in JoinUsers(users, posts, todos)
              ==> p !in u.posts
  {
    var joined := JoinUsers(users, posts, todos);
    JoinUsersSpec(users, posts, todos);
    forall u | u in joined ensures exists v :: v in users && v.id == u.id {
      var i :| 0 <= i < |joined| && joined[i] == u;
      assert BareUser(u) in multiset(Map(BareUser, users)) by {
        assert Map(BareUser, joined)[i] == BareUser(u);
      }
      var j :| 0 <= j < |users| && Map(BareUser, users)[j] == BareUser(u);
      assert users[j] in users;
    }
    forall u | u in joined ensures forall p :: p in u.posts <==> p in posts && p.userID == u.id {
      FilterByKeyMembers(posts, PostUserId, u.id);
    }
  }

  /** The combinator's loops: for each user, scan the posts and the todos for
      its id; then sort the users by id. */
  method JoinUsersLoop(usersDTOs: seq<UserDTO>, postDTOs: seq<PostDTO>, todoDTOs: seq<TodoDTO>) returns (users: seq<UserDTO>)
    ensures users == JoinUsers(usersDTOs, postDTOs, todoDTOs)
  {
    users := [];
    for i := 0 to |usersDTOs|
      invariant users == Map(WithPostsAndTodos(postDTOs, todoDTOs), usersDTOs[..i])
    {
      var userDTO := usersDTOs[i];
      var userPosts := Filter(postDTOs, PostUserId, userDTO.id);
      var userTodos := Filter(todoDTOs, TodoUserId, userDTO.id);
      assert Map(WithPostsAndTodos(postDTOs, todoDTOs), usersDTOs[..i + 1])
          == Map(WithPostsAndTodos(postDTOs, todoDTOs), usersDTOs[..i]) + [WithPostsAndTodos(postDTOs, todoDTOs)(userDTO)];
      users := users + [userDTO.(posts := userPosts, todos := userTodos)];
    }
    assert usersDTOs[..|usersDTOs|] == usersDTOs;
    var a := new UserDTO[|users|](j requires 0 <= j < |users| => users[j]);
    assert a[..] == users;
    SortInPlace(a, UserId);
    users := a[..];
  }

  /** The first half of `getPosts`: fetches every user's posts and collects
      them, skipping failed messages. The posts are collected without comments;
      the error is nil exactly when every fetch succeeded. */
  method CollectPosts(api: UserClientApi, userResponses: seq<UserResponse>, numCPU: int)
    returns (posts: seq<PostDTO>, aggErr: Errs)
    ensures multiset(posts) == multiset(FetchedPosts(api, userResponses))
    ensures multiset(aggErr) == multiset(FlatMap(ErrOf, Map(PostFetcher(api), userResponses)))
    ensures aggErr == [] <==> forall u :: u in userResponses ==> api.getPosts(u.id).1 == []
    ensures forall p :: p in posts ==> p.comments == []
  {
    var pool := new Tpl.Pool();
    pool := pool.WithMaxGoroutines(2);
    var degree, sent := Tpl.ForEach(userResponses, PostFetcher(api), numCPU, [numCPU - 1]);
    var arrivals: seq<Tpl.Task<seq<PostResponse>>> :| multiset(arrivals) == multiset(sent);
    posts, aggErr := ConsumePosts(arrivals);
    SkippingConsumer(PostsOf, arrivals, sent);
    SentPostErrors(api, userResponses);
    FetchedAreBare(api, userResponses);
    SameMembers(posts, FetchedPosts(api, userResponses));
  }

  /** The child pool of `getPosts`: fetches the comments of the collected
      posts; a failure is appended to the error so far, a success keeps the
      comments. */
  method CollectComments(api: UserClientApi, collected: seq<PostDTO>, aggErr0: Errs, numCPU: int)
    returns (comments: seq<CommentDTO>, aggErr: Errs)
    ensures multiset(aggErr0) <= multiset(aggErr)
    ensures var extra := multiset(aggErr) - multiset(aggErr0);
      || extra == multiset{}
      || exists p :: p in collected && extra == multiset(api.getComments(p.id).1)
    ensures aggErr == [] <==> aggErr0 == [] && forall p :: p in collected ==> api.getComments(p.id).1 == []
    ensures (forall p :: p in collected ==> api.getComments(p.id).1 == []) ==>
      multiset(comments) == multiset(FetchedComments(api, collected))
  {
    aggErr := aggErr0;
    comments := [];
    var child := new Tpl.Pool();
    child := child.WithMaxGoroutines(1);
    var commentsDTO, err := GetCommentsBranch(api, collected, numCPU);
    if err != [] {
      aggErr := Append(aggErr, err);
      assert multiset(aggErr) - multiset(aggErr0) == multiset(err);
    } else {
      comments := comments + commentsDTO;
    }
  }

  /** `getPosts`: collects every user's posts (skipping failures), then the
      comments of every collected post (stopping at the first failure). With
      an error the posts are returned without comments; without one, each
      post holds exactly its comments, sorted by id. */
  method GetPostsBranch(api: UserClientApi, userResponses: seq<UserResponse>, numCPU: int)
    returns (posts: seq<PostDTO>, aggErr: Errs)
    ensures aggErr == [] <==>
      && (forall u :: u in userResponses ==> api.getPosts(u.id).1 == [])
      && (forall p :: p in FetchedPosts(api, userResponses) ==> api.getComments(p.id).1 == [])
    ensures multiset(FlatMap(ErrOf, Map(PostFetcher(api), userResponses))) <= multiset(aggErr)
    ensures var extra := multiset(aggErr) - multiset(FlatMap(ErrOf, Map(PostFetcher(api), userResponses)));
      || extra == multiset{}
      || exists p :: p in FetchedPosts(api, userResponses) && extra == multiset(api.getComments(p.id).1)
    ensures multiset(Map(BarePost, posts)) == multiset(FetchedPosts(api, userResponses))
    ensures aggErr != [] ==> forall p :: p in posts ==> p.comments == []
    ensures aggErr == [] ==> forall p :: p in posts ==>
      && SortedBy(p.comments, CommentId)
      && multiset(p.comments)
         == multiset(FilterByKey(FetchedComments(api, FetchedPosts(api, userResponses)), CommentPostId, p.id))
  {
    var collected, postsErr := CollectPosts(api, userResponses, numCPU);
    aggErr := postsErr;

    var comments;
    comments, aggErr := CollectComments(api, collected, postsErr, numCPU);
    SameMembers(collected, FetchedPosts(api, userResponses));
    ghost var extra := multiset(aggErr) - multiset(postsErr);
    if extra != multiset{} {
      var p :| p in collected && extra == multiset(api.getComments(p.id).1);
      assert p in FetchedPosts(api, userResponses);
    }

    if aggErr != [] {
      assert Map(BarePost, collected) == collected;
      return collected, aggErr;
    }

    posts := AttachCommentsLoop(collected, comments);
    CommentsAttached(api, userResponses, collected, comments);
  }

  /** The success half of `getPosts`: attaching the collected comments to the
      collected posts gives each post exactly its comments, sorted. */
  lemma CommentsAttached(api: UserClientApi, us: seq<UserResponse>, collected: seq<PostDTO>, comments: seq<CommentDTO>)
    requires multiset(collected) == multiset(FetchedPosts(api, us))
    requires multiset(comments) == multiset(FetchedComments(api, collected))
    ensures multiset(Map(BarePost, AttachComments(collected, comments))) == multiset(FetchedPosts(api, us))
    ensures forall p :: p in AttachComments(collected, comments) ==>
      && SortedBy(p.comments, CommentId)
      && multiset(p.comments) == multiset(FilterByKey(FetchedComments(api, FetchedPosts(api, us)), CommentPostId, p.id))
  {
    var fetched := FetchedPosts(api, us);
    var posts := AttachComments(collected, comments);
    FetchedAreBare(api, us);
    SameMembers(collected, fetched);
    AttachCommentsSpec(collected, comments);
    FetchedCommentsPermutation(api, collected, fetched);
    assert Map(BarePost, posts) == collected by {
      forall i | 0 <= i < |posts| ensures BarePost(posts[i]) == collected[i] {
        assert collected[i] in collected;
      }
    }
    forall p | p in posts
      ensures SortedBy(p.comments, CommentId)
      ensures multiset(p.comments) == multiset(FilterByKey(FetchedComments(api, fetched), CommentPostId, p.id))
    {
      var i :| 0 <= i < |posts| && posts[i] == p;
      assert collected[i] in collected;
      assert BarePost(p) == BarePost(collected[i]);
      FilterByKeyPermutation(comments, FetchedComments(api, fetched), CommentPostId, p.id);
    }
  }

  // The whole aggregation.

  /** Every fetch the aggregation makes for a page of users succeeded. */
  ghost predicate AllFetched(api: UserClientApi, us: seq<UserResponse>)
  {
    && (forall u :: u in us ==> api.getUser(u.id).1 == [])
    && (forall u :: u in us ==> api.getPosts(u.id).1 == [])
    && (forall u :: u in us ==> api.getTodos(u.id).1 == [])
    && (forall p :: p in FetchedPosts(api, us) ==> api.getComments(p.id).1 == [])
  }

  /** What the aggregated list holds for a page of users: the users sorted by
      id; each with exactly the posts and the todos that name it; each post
      with exactly the comments that name it, sorted by id. */
  ghost predicate Aggregated(api: UserClientApi, us: seq<UserResponse>, users: seq<UserDTO>)
  {
    && SortedBy(users, UserId)
    && multiset(Map(BareUser, users)) == multiset(FetchedUsers(api, us))
    && (forall u :: u in users ==>
         && multiset(Map(BarePost, u.posts)) == multiset(FilterByKey(FetchedPosts(api, us), PostUserId, u.id))
         && multiset(u.todos) == multiset(FilterByKey(FetchedTodos(api, us), TodoUserId, u.id)))
    && (forall u, p :: u in users && p in u.posts ==>
         && SortedBy(p.comments, CommentId)
         && multiset(p.comments) == multiset(FilterByKey(FetchedComments(api, FetchedPosts(api, us)), CommentPostId, p.id)))
  }

  /** When every detail fetch succeeds, there is one user per listed user. */
  lemma {:induction false} FetchedUsersLength(api: UserClientApi, us: seq<UserResponse>)
    requires NoNilResults(api)
    requires forall u :: u in us ==> api.getUser(u.id).1 == []
    ensures |FetchedUsers(api, us)| == |us|
    decreases |us|
  {
    if us != [] {
      var us' := us[..|us| - 1];
      FetchedUsersLength(api, us');
      assert Map(UserFetcher(api), us)[..|us| - 1] == Map(UserFetcher(api), us');
      assert us[|us| - 1] in us;
    }
  }

  /** Joining what the three branches collected without error gives the
      aggregated list, whatever order their messages arrived in. */
  lemma BranchesAggregate(api: UserClientApi, us: seq<UserResponse>,
                          users: seq<UserDTO>, posts: seq<PostDTO>, todos: seq<TodoDTO>)
    requires multiset(users) == multiset(FetchedUsers(api, us))
    requires multiset(Map(BarePost, posts)) == multiset(FetchedPosts(api, us))
    requires multiset(todos) == multiset(FetchedTodos(api, us))
    requires forall p :: p in posts ==>
      && SortedBy(p.comments, CommentId)
      && multiset(p.comments) == multiset(FilterByKey(FetchedComments(api, FetchedPosts(api, us)), CommentPostId, p.id))
    ensures Aggregated(api, us, JoinUsers(users, posts, todos))
    ensures |JoinUsers(users, posts, todos)| == |users|
  {
    var joined := JoinUsers(users, posts, todos);
    JoinUsersSpec(users, posts, todos);
    assert Map(BareUser, users) == users by {
      FetchedAreBare(api, us);
      SameMembers(users, FetchedUsers(api, us));
      assert forall i :: 0 <= i < |users| ==> users[i] in users;
    }
    forall u | u in joined
      ensures multiset(Map(BarePost, u.posts)) == multiset(FilterByKey(FetchedPosts(api, us), PostUserId, u.id))
      ensures multiset(u.todos) == multiset(FilterByKey(FetchedTodos(api, us), TodoUserId, u.id))
    {
      FilterByKeyMap(BarePost, posts, PostUserId, PostUserId, u.id);
      FilterByKeyPermutation(Map(BarePost, posts), FetchedPosts(api, us), PostUserId, u.id);
      FilterByKeyPermutation(todos, FetchedTodos(api, us), TodoUserId, u.id);
    }
    forall u, p | u in joined && p in u.posts
      ensures SortedBy(p.comments, CommentId)
      ensures multiset(p.comments) == multiset(FilterByKey(FetchedComments(api, FetchedPosts(api, us)), CommentPostId, p.id))
    {
      FilterByKeyMembers(posts, PostUserId, u.id);
    }
  }

  /** The callback handed to the combinator: joins and never fails. */
  function JoinCallback(): (seq<UserDTO>, seq<PostDTO>, seq<TodoDTO>, Errs) -> Tpl.Task<seq<UserDTO>>
  {
    (usersDTOs: seq<UserDTO>, postDTOs: seq<PostDTO>, todoDTOs: seq<TodoDTO>, err: Errs) =>
      Tpl.Task(JoinUsers(usersDTOs, postDTOs, todoDTOs), [])
  }

  /** `UsersService.GetUsers(page, perPage)`. A failed listing is returned as
      it is. Otherwise the three branches run over the listed users and are
      zipped; any error among them makes the result nil. Without error the
      page carries the listing's paging fields and the aggregated users, one
      per listed user. */
  method GetUsers(api: UserClientApi, page: int, perPage: int, numCPU: int)
    returns (r: Option<PagedResultDTO<UserDTO>>, err: Errs)
    requires NoNilResults(api)
    ensures api.getUsers(page, perPage).1 != [] ==> r == None && err == api.getUsers(page, perPage).1
    ensures r.Some? <==> err == []
    ensures err == [] <==>
      api.getUsers(page, perPage).1 == [] && AllFetched(api, api.getUsers(page, perPage).0.value.results)
    ensures r.Some? ==>
      var listed := api.getUsers(page, perPage).0.value;
      && r.value.limit == listed.limit && r.value.page == listed.page
      && r.value.pages == listed.pages && r.value.total == listed.total
      && |r.value.results| == |listed.results|
      && Aggregated(api, listed.results, r.value.results)
  {
    var pagedResult, aggErr := api.getUsers(page, perPage).0, api.getUsers(page, perPage).1;
    if aggErr != [] {
      return None, aggErr;
    }
    var us := pagedResult.value.results;

    var users, usersErr := GetUsersBranch(api, us, numCPU);
    var posts, postsErr := GetPostsBranch(api, us, numCPU);
    var todos, todosErr := GetTodosBranch(api, us, numCPU);
    var joined, zipErr := Tpl.Zip(Tpl.Task(users, usersErr), Tpl.Task(posts, postsErr), Tpl.Task(todos, todosErr),
                                  JoinCallback());
    if zipErr != [] {
      return None, zipErr;
    }

    assert joined == JoinUsers(users, posts, todos);
    BranchesAggregate(api, us, users, posts, todos);
    FetchedUsersLength(api, us);
    return Some(PagedResultDTO(pagedResult.value.limit, pagedResult.value.page, pagedResult.value.pages,
                               pagedResult.value.total, joined)), [];
  }

  /** How many results the successful messages carry in all. */
  function SuccessfulCount<T>(ts: seq<Tpl.Task<seq<T>>>): nat
    decreases |ts|
  {
    if ts == [] then 0
    else SuccessfulCount(ts[..|ts| - 1]) + (if ts[|ts| - 1].err == [] then |ts[|ts| - 1].result| else 0)
  }

  /** The posts consumer collects one post per result of a successful message
      and none from a failed one; each post copies its response's fields and
      starts without comments. */
  lemma {:induction false} CollectedPosts(arrivals: seq<Tpl.Task<seq<PostResponse>>>)
    ensures |FlatMap(PostsOf, arrivals)| == SuccessfulCount(arrivals)
    ensures forall p :: p in FlatMap(PostsOf, arrivals) ==>
      && p.comments == []
      && exists k, r ::
           && 0 <= k < |arrivals| && arrivals[k].err == [] && r in arrivals[k].result
           && p.id == r.id && p.userID == r.userID && p.title == r.title && p.body == r.body
    decreases |arrivals|
  {
    if arrivals != [] {
      CollectedPosts(arrivals[..|arrivals| - 1]);
    }
    forall p | p in FlatMap(PostsOf, arrivals)
      ensures p.comments == []
      ensures exists k, r ::
                && 0 <= k < |arrivals| && arrivals[k].err == [] && r in arrivals[k].result
                && p.id == r.id && p.userID == r.userID && p.title == r.title && p.body == r.body
    {
      FlatMapMembers(PostsOf, arrivals, p);
      var k :| 0 <= k < |arrivals| && p in PostsOf(arrivals[k]);
      var j :| 0 <= j < |arrivals[k].result| && p == ToPostDTO(arrivals[k].result[j]);
      assert arrivals[k].result[j] in arrivals[k].result;
    }
  }

  // The two consumer disciplines compared.

  /** Without a failed message, stopping at the first failure and skipping
      failures read the same messages and collect the same. */
  lemma ConsumersAgreeWithoutFailures<T, B>(g: Tpl.Task<T> -> seq<B>, arrivals: seq<Tpl.Task<T>>)
    requires forall k :: 0 <= k < |arrivals| ==> arrivals[k].err == []
    ensures FirstFailure(arrivals) == |arrivals|
    ensures FlatMap(g, arrivals[..FirstFailure(arrivals)]) == FlatMap(g, arrivals)
    ensures FlatMap(ErrOf, arrivals) == []
  {
    FlatMapEmpty(ErrOf, arrivals);
    assert arrivals[..|arrivals|] == arrivals;
  }

  /** After a failed message they differ: the skipping consumer still keeps
      the posts that arrive later, the stopping one keeps nothing. */
  lemma ConsumersDifferAfterFailure(e: Error, post: PostResponse)
    ensures var arrivals := [Tpl.Task([], [e]), Tpl.Task([post], [])];
      && FlatMap(PostsOf, arrivals) == [ToPostDTO(post)]
      && FlatMap(PostsOf, arrivals[..FirstFailure(arrivals)]) == []
      && FlatMap(ErrOf, arrivals) == [e]
  {
    var arrivals := [Tpl.Task([], [e]), Tpl.Task([post], [])];
    FlatMapPair(PostsOf, arrivals[0], arrivals[1]);
    FlatMapPair(ErrOf, arrivals[0], arrivals[1]);
    assert arrivals == [arrivals[0], arrivals[1]];
    assert FirstFailure(arrivals) == 0;
  }

  // The service's own test scenario.

  function ListedUser(id: int): UserResponse
  {
    UserResponse(id, "", "", "", "")
  }

  /** The client of the service's first test: users 1 and 2, one post each
      (both naming user 1), one todo each, one comment per post whose post id
      is left unset (0). */
  function ServiceTestApi(dueOn: Time): UserClientApi
  {
    UserClientApi(
      (page: int, perPage: int) => (Some(PagedResultResponse(0, 0, 0, 0, [ListedUser(1), ListedUser(2)])), []),
      (id: int) => (Some(ListedUser(id)), []),
      (id: int) => ([PostResponse(if id == 1 then 123 else 124, 1, "Hello world!", "From Golang")], []),
      (id: int) => ([TodoResponse(123, id, "Hello world!", dueOn, "")], []),
      (id: int) => ([CommentResponse(id, 0, "Hello world!", "", "")], []))
  }

  lemma ServiceTestFetches(dueOn: Time)
    ensures var api := ServiceTestApi(dueOn);
      var us := [ListedUser(1), ListedUser(2)];
      && FetchedUsers(api, us) == [ToUserDTO(ListedUser(1)), ToUserDTO(ListedUser(2))]
      && FetchedPosts(api, us) == [PostDTO(123, 1, "Hello world!", "From Golang", []), PostDTO(124, 1, "Hello world!", "From Golang", [])]
      && |FetchedTodos(api, us)| == 2 && FetchedTodos(api, us)[0].userID == 1 && FetchedTodos(api, us)[1].userID == 2
      && forall c :: c in FetchedComments(api, FetchedPosts(api, us)) ==> c.postID == 0
  {
    var api := ServiceTestApi(dueOn);
    var us := [ListedUser(1), ListedUser(2)];
    assert Map(UserFetcher(api), us) == [UserFetcher(api)(us[0]), UserFetcher(api)(us[1])];
    FlatMapPair(UserOf, UserFetcher(api)(us[0]), UserFetcher(api)(us[1]));
    assert Map(PostFetcher(api), us) == [PostFetcher(api)(us[0]), PostFetcher(api)(us[1])];
    FlatMapPair(PostsOf, PostFetcher(api)(us[0]), PostFetcher(api)(us[1]));
    assert Map(TodoFetcher(api), us) == [TodoFetcher(api)(us[0]), TodoFetcher(api)(us[1])];
    FlatMapPair(TodosOf, TodoFetcher(api)(us[0]), TodoFetcher(api)(us[1]));
    var posts := FetchedPosts(api, us);
    assert Map(CommentFetcher(api), posts) == [CommentFetcher(api)(posts[0]), CommentFetcher(api)(posts[1])];
    FlatMapPair(CommentsOf, CommentFetcher(api)(posts[0]), CommentFetcher(api)(posts[1]));
  }

  /** The service's first test: no error, two users sorted by id; user 1 holds
      both posts (the second post names user 1 although it was fetched for user
      2) and user 2 none; each user holds its one todo; no comment is attached,
      since none names a post. */
  method ServiceTestScenario(dueOn: Time, page: int, perPage: int, numCPU: int)
    returns (r: Option<PagedResultDTO<UserDTO>>, err: Errs)
    ensures err == [] && r.Some? && |r.value.results| == 2
    ensures r.Some? && |r.value.results| == 2 ==>
      && r.value.results[0].id == 1 && r.value.results[1].id == 2
      && |r.value.results[0].posts| == 2 && r.value.results[1].posts == []
      && |r.value.results[0].todos| == 1 && |r.value.results[1].todos| == 1
    ensures r.Some? ==> forall u, p :: u in r.value.results && p in u.posts ==> p.comments == []
  {
    var api := ServiceTestApi(dueOn);
    r, err := GetUsers(api, page, perPage, numCPU);
    ServiceTestFetches(dueOn);
    var us := [ListedUser(1), ListedUser(2)];
    assert err == [] by {
      assert api.getUsers(page, perPage).0.value.results == us;
      FetchedAreBare(api, us);
    }
    ScenarioOutcome(api, us, r.value.results);
  }

  lemma ScenarioOutcome(api: UserClientApi, us: seq<UserResponse>, users: seq<UserDTO>)
    requires Aggregated(api, us, users) && |users| == |us|
    requires FetchedUsers(api, us) == [ToUserDTO(ListedUser(1)), ToUserDTO(ListedUser(2))]
    requires FetchedPosts(api, us) == [PostDTO(123, 1, "Hello world!", "From Golang", []), PostDTO(124, 1, "Hello world!", "From Golang", [])]
    requires |FetchedTodos(api, us)| == 2 && FetchedTodos(api, us)[0].userID == 1 && FetchedTodos(api, us)[1].userID == 2
    requires forall c :: c in FetchedComments(api, FetchedPosts(api, us)) ==> c.postID == 0
    ensures |users| == 2 ==>
      && users[0].id == 1 && users[1].id == 2
      && |users[0].posts| == 2 && users[1].posts == []
      && |users[0].todos| == 1 && |users[1].todos| == 1
    ensures forall u, p :: u in users && p in u.posts ==> p.comments == []
  {
    var posts := FetchedPosts(api, us);
    if |users| == 2 {
      TwoUsersInOrder(users, ToUserDTO(ListedUser(1)), ToUserDTO(ListedUser(2)));
      assert users[0] in users && users[1] in users;
      ScenarioPosts(users, posts);
      ScenarioTodos(users, FetchedTodos(api, us));
    }
    ScenarioPosts(users, posts);
    ScenarioComments(users, FetchedComments(api, posts));
  }

  lemma ScenarioComments(users: seq<UserDTO>, comments: seq<CommentDTO>)
    requires forall c :: c in comments ==> c.postID == 0
    requires forall u, p :: u in users && p in u.posts ==> p.id != 0
    requires forall u, p :: u in users && p in u.posts ==>
      multiset(p.comments) == multiset(FilterByKey(comments, CommentPostId, p.id))
    ensures forall u, p :: u in users && p in u.posts ==> p.comments == []
  {
    forall u, p | u in users && p in u.posts ensures p.comments == [] {
      var matching := FilterByKey(comments, CommentPostId, p.id);
      forall c ensures multiset(matching)[c] == 0 {
        FilterByKeyCount(comments, CommentPostId, p.id, c);
        assert c in comments || multiset(comments)[c] == 0;
      }
      assert multiset(matching) == multiset{};
      assert |p.comments| == |multiset(p.comments)|;
    }
  }

  lemma TwoUsersInOrder(users: seq<UserDTO>, d1: UserDTO, d2: UserDTO)
    requires |users| == 2 && SortedBy(users, UserId)
    requires multiset(Map(BareUser, users)) == multiset([d1, d2])
    requires d1.id == 1 && d2.id == 2
    ensures users[0].id == 1 && users[1].id == 2
  {
    var b0, b1 := BareUser(users[0]), BareUser(users[1]);
    assert Map(BareUser, users) == [b0, b1];
    assert multiset{b0, b1} == multiset{d1, d2};
    assert b0 == d1 || b0 == d2 by {
      assert b0 in multiset{d1, d2};
    }
    assert b1 == d1 || b1 == d2 by {
      assert b1 in multiset{d1, d2};
    }
    assert b0 != b1;
    assert UserId(users[0]) <= UserId(users[1]);
  }

  lemma ScenarioPosts(users: seq<UserDTO>, posts: seq<PostDTO>)
    requires posts == [PostDTO(123, 1, "Hello world!", "From Golang", []), PostDTO(124, 1, "Hello world!", "From Golang", [])]
    requires forall u :: u in users ==>
      multiset(Map(BarePost, u.posts)) == multiset(FilterByKey(posts, PostUserId, u.id))
    ensures forall u :: u in users && u.id == 1 ==> |u.posts| == 2
    ensures forall u :: u in users && u.id == 2 ==> u.posts == []
    ensures forall u, p :: u in users && p in u.posts ==> p.id != 0
  {
    FilterByKeyPair(posts[0], posts[1], PostUserId, 1);
    FilterByKeyPair(posts[0], posts[1], PostUserId, 2);
    assert posts == [posts[0], posts[1]];
    forall u | u in users && u.id == 1 ensures |u.posts| == 2 {
      assert |Map(BarePost, u.posts)| == |multiset(Map(BarePost, u.posts))| == |multiset(posts)|;
    }
    forall u | u in users && u.id == 2 ensures u.posts == [] {
      assert |Map(BarePost, u.posts)| == |multiset(Map(BarePost, u.posts))| == 0;
    }
    forall u, p | u in users && p in u.posts ensures p.id != 0 {
      var i :| 0 <= i < |u.posts| && u.posts[i] == p;
      assert Map(BarePost, u.posts)[i] == BarePost(p);
      assert BarePost(p) in multiset(Map(BarePost, u.posts));
      assert BarePost(p) in FilterByKey(posts, PostUserId, u.id);
      FilterByKeyMembers(posts, PostUserId, u.id);
      assert BarePost(p) in posts;
    }
  }

  lemma ScenarioTodos(users: seq<UserDTO>, todos: seq<TodoDTO>)
    requires |todos| == 2 && todos[0].userID == 1 && todos[1].userID == 2
    requires forall u :: u in users ==> multiset(u.todos) == multiset(FilterByKey(todos, TodoUserId, u.id))
    ensures forall u :: u in users && (u.id == 1 || u.id == 2) ==> |u.todos| == 1
  {
    assert todos == [todos[0], todos[1]];
    FilterByKeyPair(todos[0], todos[1], TodoUserId, 1);
    FilterByKeyPair(todos[0], todos[1], TodoUserId, 2);
    forall u | u in users && (u.id == 1 || u.id == 2) ensures |u.todos| == 1 {
      assert |u.todos| == |multiset(u.todos)|;
    }
  }
}

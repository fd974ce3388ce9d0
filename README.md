# gorest-api user aggregation, modelled in Dafny

This project models the core of gorest-api, a Go service that serves one page of users from a remote REST API. For each listed user it fetches:

- the user's detail,
- the user's posts, and for each post its comments,
- the user's todos.

It nests the results into one tree, sorted by user id. If any fetch fails, the whole result is voided.

The model covers these parts of the code:

- **The HTTP client** (`Clients`): which URL each call requests, which status codes it accepts, and how the four pagination headers are parsed, all or nothing.
- **The worker-pool helpers** (`Tpl`, and `Gpars`, a duplicate of it): the task envelope `ToTask`, the degree rule of `ForEach`, `WithMaxGoroutines`, and the three-branch `Zip` combinator.
- **The service** (`Services`):
  - the four branch consumers;
  - the foreign-key joins and the sorts;
  - the paging copy;
  - the all-or-nothing error policy.

Concurrency is replaced by sequential runs. Each branch's producer sends one message per input. The order in which the consumer reads those messages is a nondeterministic choice: any permutation of what was sent. Every property of a branch is therefore proved for all arrival orders.

Other modelling choices:

- A Go `error` is a list of errors (`Common.Errs`). Nil is the empty list, and `multierr.Append` is concatenation.
- A `(T, error)` pair is a tuple, and a nil pointer result is `None`.
- The transport, JSON decoding (`FillUp`) and `strconv.Atoi` are foreign calls. They are functions the client is built with (`Clients.Codec`).
- The service is written against the client interface `IUserClient`, modelled as `Clients.UserClientApi`. Every property of the service therefore holds for every client that never returns a nil result without an error. The modelled client is such a client (`Clients.UserClientHasNoNilUser`, and `r.Some? <==> err == []` on `Clients.UserClient.GetUsers`).
- `time.Time` is an opaque type.

Files:

- `common.dfy`: errors and `Option`.
- `seqs.dfy`: flattening, mapping and key selection, with their permutation facts.
- `sorting.dfy`: the sort specification and an in-place array sort proved against it.
- `decimal.dfy`: `strconv.Itoa`.
- `model.dfy`: the records.
- `tpl.dfy`, `gpars.dfy`: the worker-pool helpers.
- `user_client.dfy`: the client.
- `users_service.dfy`: the service.

Two behaviours of the code are easy to misread and are modelled as written:

- A 404 from a child-list endpoint is not turned into an empty list: its body is decoded as for a 200 (user_client.go:117-126).
- The todos and comments consumers stop at the first failed message (users_service.go:175-178, 262-265); the users and posts consumers go on reading.

## Model

| member | source | states |
|---|---|---|
| Common.Append | src/app/tpl/worker_pool.go:79 | aggregating errors keeps every error, and the aggregate is nil exactly when both parts are nil |
| Tpl.ToTask | src/app/tpl/worker_pool.go:36-43 | the call is made once, and its result and error are carried unchanged |
| Tpl.ForEach | src/app/tpl/worker_pool.go:45-55 | degree is `NumCPU()-1` unless the first optional argument exists and is positive, in which case it is that argument (later arguments are ignored); exactly one message per input, in input order, each being what the callback produced for that input |
| Tpl.Pool.constructor | src/app/tpl/worker_pool.go:16-20 | a new pool has no goroutine bound |
| Tpl.Pool.WithMaxGoroutines | src/app/tpl/worker_pool.go:22-25 | sets the bound and returns the same receiver |
| Tpl.Zip | src/app/tpl/worker_pool.go:67-113 | a branch's output reaches the combinator only if that branch returned no error, and a failed branch contributes nothing; the combinator is called once, on the collected outputs and the aggregated branch errors; if it fails, the result is nil with its error and the branch errors are dropped; otherwise its result is returned with the aggregated branch errors; the final error is nil exactly when all three branches and the combinator succeed |
| Tpl.Accumulate | src/app/tpl/worker_pool_test.go:18-26 | the test's consumer adds up the results in the order it reads them |
| Tpl.SumResultsPermutation | src/app/tpl/worker_pool_test.go:18-26 | the accumulated sum is the same for every arrival order |
| Tpl.NumbersAddUpInAnyOrder | src/app/tpl/worker_pool_test.go:10-39 | the numbers 0..9 sent through `ForEach` and read in any order add up to 45 |
| Gpars.ToTask | src/app/gpars/worker_pool.go:30-37 | the call is made once, and its result and error are carried unchanged |
| Gpars.ForEach | src/app/gpars/worker_pool.go:39-49 | default degree `NumCPU()-1`, overridden only by a present, positive first optional argument; one message per input, in input order |
| Gpars.Pool.constructor | src/app/gpars/worker_pool.go:14-18 | a new pool has no goroutine bound |
| Gpars.Pool.WithMaxGoroutines | src/app/gpars/worker_pool.go:20-23 | sets the bound and returns the receiver itself |
| Decimal.ItoaRoundTrip | src/app/clients/user_client.go:37 | the decimal text of an integer reads back as that integer; it is non-empty, all digits, with a leading '-' only for a negative number |
| Decimal.ItoaInjective | src/app/clients/user_client.go:41 | distinct integers are written differently |
| Clients.UsersURLQuery | src/app/clients/user_client.go:34-42 | the list URL has a '?' exactly when page > 0 and a '&' exactly when perPage > 0, each decided independently; with page <= 0 and perPage > 0 it is "/users&per_page=M" |
| Clients.PathsInjective | src/app/clients/user_client.go:90-150 | each of the four path formats determines the id it was built from |
| Clients.PathsDistinct | src/app/clients/user_client.go:34-150 | no two endpoints (list, detail, posts, comments, todos) ever request the same path |
| Clients.UserClientHasNoNilUser | src/app/clients/user_client.go:100-106 | the detail call returns a user whenever it returns no error |
| Clients.UserClient.GetUsers | src/app/clients/user_client.go:33-87 | a transport error is returned before any status check; any status other than 200 is an error; a result exists exactly when the error is nil; the error is the first failure among decoding and the Limit, Page, Pages and Total headers, in that order; on success the page carries the four parsed integers and the decoded users |
| Clients.UserClient.GetUser | src/app/clients/user_client.go:89-107 | requests "/users/{id}"; transport error first; only 200 is accepted; a decoding failure returns the decoder's own error; the decoded user is present exactly when the error is nil |
| Clients.ReceiveList | src/app/clients/user_client.go:113-126 | transport error first; 200 and 404 both go on to decoding; any other status is an error; a decoding failure returns the decoder's own error; the list is empty whenever the error is not nil |
| Clients.UserClient.GetPosts | src/app/clients/user_client.go:109-127 | requests "/users/{id}/posts"; transport error first; 200 or 404 go on to decoding; other statuses are errors; a decoding failure returns the decoder's own error; the decoded list is returned exactly when the error is nil |
| Clients.UserClient.GetComments | src/app/clients/user_client.go:129-147 | requests "/posts/{id}/comments"; transport error first; 200 or 404 go on to decoding; other statuses are errors; a decoding failure returns the decoder's own error; the decoded list is returned exactly when the error is nil |
| Clients.UserClient.GetTodos | src/app/clients/user_client.go:149-167 | requests "/users/{id}/todos"; transport error first; 200 or 404 go on to decoding; other statuses are errors; a decoding failure returns the decoder's own error; the decoded list is returned exactly when the error is nil |
| Seqs.Filter | src/app/services/users_service.go:50-55 | the scan-and-match loop keeps, in order, exactly the elements whose key matches |
| Seqs.FilterByKeyMembers | src/app/services/users_service.go:50-62 | an element is selected exactly when it is in the input and its foreign key matches |
| Seqs.FlatMapPermutation | src/app/services/users_service.go:97-113 | what a consumer collects depends only on which messages arrived, not on their order |
| Sorting.SortBySortedPermutation | src/app/services/users_service.go:68-70 | the sorted list is ordered by the key and is a permutation of its input |
| Sorting.SortInPlace | src/app/services/users_service.go:143-145 | sorting in place leaves the array holding the sort of its old contents |
| Services.FirstFailure | src/app/services/users_service.go:173-177 | the position where a stopping consumer stops: every earlier message succeeded, and the message there failed (or the end was reached) |
| Services.ConsumeUsers | src/app/services/users_service.go:216-234 | reads every message; a failed one adds its error and is skipped; the others each give one user DTO copying the response's fields |
| Services.ConsumePosts | src/app/services/users_service.go:96-114 | reads every message; a failed one adds its error and is skipped; the others give their posts, mapped to DTOs |
| Services.ConsumeTodos | src/app/services/users_service.go:172-191 | reads until the first failed message, whose error is the result's error; the todos of the messages before it are kept |
| Services.ConsumeComments | src/app/services/users_service.go:259-277 | reads until the first failed message, whose error is the result's error; the comments of the messages before it are kept |
| Services.SkippingConsumer | src/app/services/users_service.go:97-102 | for every arrival order, a skipping consumer collects the same multiset and the same errors, and fails exactly when some message failed |
| Services.StoppingConsumer | src/app/services/users_service.go:173-177 | for every arrival order, a stopping consumer reaches the end exactly when no message failed, and then collects everything; otherwise it stops at a sent message having collected part of everything |
| Services.ConsumersAgreeWithoutFailures | src/app/services/users_service.go:173-177 | without a failed message, the stopping consumer reads as far as the skipping one and collects the same, with no error |
| Services.ConsumersDifferAfterFailure | src/app/services/users_service.go:97-102 | after a failed message the skipping consumer keeps a later post and the stopping one does not |
| Services.CollectedPosts | src/app/services/users_service.go:104-113 | one post per result of a successful message, none from a failed one; each post copies its response's id, user id, title and body, and starts with no comments |
| Services.FetchedAreBare | src/app/services/users_service.go:104-113 | every fetched post starts without comments, and every fetched user starts without posts or todos |
| Services.GetUsersBranch | src/app/services/users_service.go:207-248 | in any arrival order: the users collected are those whose detail fetch succeeded; errors are those of the failed fetches; the branch fails exactly when some fetch failed |
| Services.GetTodosBranch | src/app/services/users_service.go:163-205 | fails exactly when some user's todos fetch failed, and then with that fetch's error; without error it holds every todo; in every case it holds part of every todo |
| Services.GetCommentsBranch | src/app/services/users_service.go:250-291 | fails exactly when some post's comments fetch failed, and then with that fetch's error; without error it holds every comment; in every case it holds part of every comment |
| Services.CollectComments | src/app/services/users_service.go:116-129 | the comments of the collected posts are fetched; a failure adds one failed fetch's error to those so far; without a failed fetch every comment is kept; the error is nil exactly when it was nil before and every comments fetch succeeded |
| Services.CollectPosts | src/app/services/users_service.go:96-114 | in any arrival order, every successfully fetched post is collected, without comments; fails exactly when some posts fetch failed |
| Services.AttachCommentsSpec | src/app/services/users_service.go:135-146 | each post keeps its other fields and position, and its comments are exactly the matching ones, sorted by id |
| Services.AttachCommentsLoop | src/app/services/users_service.go:135-146 | the attaching loop with its in-place sort computes that attachment |
| Services.CommentsAttached | src/app/services/users_service.go:131-146 | attaching the collected comments to the collected posts gives each post exactly the fetched comments naming it, sorted by id |
| Services.GetPostsBranch | src/app/services/users_service.go:86-161 | fails exactly when a posts fetch or a collected post's comments fetch failed; its error holds every failed posts fetch's error plus at most one failed comments fetch's error; with an error the posts carry no comments; without one, each post holds exactly its comments, sorted by id |
| Services.JoinUsersSpec | src/app/services/users_service.go:46-70 | one entry per input user; the list is sorted by id; each user holds exactly the posts and the todos whose user id is its id |
| Services.PostsFollowTheirUserId | src/app/services/users_service.go:50-55 | a post is attached by its own user id, not by the user it was fetched for; a post naming no listed user is attached to nobody |
| Services.JoinUsersLoop | src/app/services/users_service.go:46-70 | the callback's nested loops and in-place sort compute that join |
| Services.FetchedUsersLength | src/app/services/users_service.go:217-232 | when every detail fetch succeeds there is one user per listed user |
| Services.BranchesAggregate | src/app/services/users_service.go:40-71 | joining the three branches' error-free outputs gives the aggregated tree, whatever order their messages arrived in |
| Services.GetUsers | src/app/services/users_service.go:31-84 | a failed listing is returned as it is; otherwise the result is present exactly when the error is nil, which is exactly when every detail, posts, todos and comments fetch succeeded; on success the paging fields are copied unchanged, there is one user per listed user, and the users are sorted with their posts, todos and sorted comments |
| Services.ServiceTestScenario | src/app/services/users_service_test.go:14-34 | the service's first test: no error and two users in id order; user 1 holds both posts (one was fetched for user 2) and user 2 none; one todo each; no comments attached, since the comments name post 0 |

## Left out

- Goroutines, channels, channel buffering and `Wait` are not modelled. Each branch runs sequentially, with the arrival order chosen nondeterministically.
- The unsynchronised writes to the shared error in `Zip` (a data race) are not modelled. The branches are sequentialised.
- Tpl.Zip: takes the three branch outcomes rather than the three branch functions. The branches run before it, one after the other. It concatenates the branch errors in branch order, whereas the code appends them in completion order.
- Services.GetUsers: the code calls a `Pool13.Zip` whose source is not part of this model. `Tpl.Zip` (the `Pool41` combinator) stands in for it, given a join callback that never fails. The callback's append of the error to the outer `aggErr` (users_service.go:42-44) is not modelled, because nothing reads that variable afterwards.
- Services.GetUsersBranch: states the errors only as a multiset, because their order in the code depends on arrival order. The same holds for `CollectPosts`, and for `GetPostsBranch`, whose error is the posts errors plus at most one failed comments fetch's error.
- Sorting.SortInPlace: is a stable insertion sort, whereas `slices.SortFunc` is not stable. For equal ids the model therefore fixes one order that the code need not produce. Only sortedness and permutation are used by the service lemmas.
- Nil and empty slices are not distinguished. The promise that a user with no matching posts gets an empty non-nil list is therefore not modelled.
- `rest.IRequestBuilder.Get`, `FillUp` (JSON decoding) and `strconv.Atoi` are foreign calls, given as functions. Their own behaviour (parsing, overflow) is not modelled.
- Clients.HeaderGet: looks headers up by exact name. The canonicalisation of header names done by `http.Header.Get` is not modelled.
- Clients.UserClient.GetUsers: a status error carries the status code (`UnexpectedStatus`), not the formatted message text. The same holds for the other client calls.
- `multierr` message formatting is not modelled. Only the presence and the members of the aggregated error are.
- Tpl.ForEach: computes the degree but does not use it. The number of goroutines has no observable effect once runs are sequential, and the iteration library's handling of a degree <= 0 is not modelled. The same holds for `Gpars.ForEach`.
- A client result that is nil without an error would make the Go code dereference nil. The service requires that this never happens (`NoNilResults`).
- The `UserResponse` record's source file is not part of this model. Its fields are the ones the service reads (users_service.go:224-230).
- Go's `int` is 64 bits wide. Identifiers are only compared and copied, never computed with, so they are unbounded integers here.
- Services.ServiceTestScenario: the test mocks `GetUsers()` without arguments, unlike the interface's `GetUsers(page, perPage)`. The scenario takes any page arguments and gives the mocked listing zero paging fields. The mock's per-argument expectations are total functions.
- `src/app/worker/worker_pool.go` (metrics registration), `src/app/examples/main.go` (a concurrency demo), the controller, routes, application wiring and the client builder (timeouts, base URL) are not part of this model.

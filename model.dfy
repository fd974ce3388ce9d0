/**
 * The records the client decodes (`...Response`) and the tree the service
 * returns (`...DTO`), field for field. Go's `int` identifiers are only
 * compared, never computed with, so they are unbounded `int`s here.
 */
module Model {

  /** Go's `time.Time`: carried from a todo response to its DTO, never inspected. */
  type Time(==)

  /** A user as the list and detail endpoints return it (the fields the
      service reads from it). */
  datatype UserResponse = UserResponse(id: int, name: string, email: string, gender: string, status: string)

  datatype PostResponse = PostResponse(id: int, userID: int, title: string, body: string)

  datatype TodoResponse = TodoResponse(id: int, userID: int, title: string, dueOn: Time, status: string)

  datatype CommentResponse = CommentResponse(id: int, postID: int, name: string, email: string, body: string)

  /** One entry of the aggregated result: a user with its posts and todos. */
  datatype UserDTO = UserDTO(
    id: int, name: string, email: string, gender: string, status: string,
    posts: seq<PostDTO>, todos: seq<TodoDTO>)

  /** A post with its comments. */
  datatype PostDTO = PostDTO(id: int, userID: int, title: string, body: string, comments: seq<CommentDTO>)

  datatype TodoDTO = TodoDTO(id: int, userID: int, title: string, dueOn: Time, status: string)

  datatype CommentDTO = CommentDTO(id: int, postID: int, name: string, email: string, body: string)

  /** A page of results as the client decodes it from the list endpoint. */
  datatype PagedResultResponse<T> = PagedResultResponse(limit: int, page: int, pages: int, total: int, results: seq<T>)

  /** A page of results as the service returns it. */
  datatype PagedResultDTO<T> = PagedResultDTO(limit: int, page: int, pages: int, total: int, results: seq<T>)

  // Keys the joins match on and the sorts order by.

  function UserId(u: UserDTO): int { u.id }

  function PostUserId(p: PostDTO): int { p.userID }

  function TodoUserId(t: TodoDTO): int { t.userID }

  function CommentId(c: CommentDTO): int { c.id }

  function CommentPostId(c: CommentDTO): int { c.postID }
}

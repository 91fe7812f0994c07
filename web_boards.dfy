/**
 * The web routes `GET /api/boards` and `GET /api/boards-for-project`: validate the
 * query, check that the user has Jira tokens, fetch the list, and sort a thrown error
 * into "authenticate again" (401), "no boards" (200, project route only) or a plain 500.
 *
 * The token lookup and the fetch are input `Outcome`s; `buildJiraAuthUrl` is a
 * parameter. A response records the calls made and the reply.
 */
module WebBoards {
  import opened Wrappers
  import opened Text
  import opened Calls

  /** The JSON body of a reply: an error, an error asking the client to connect Jira
      again, or the list. */
  datatype Body<+T> =
    | ErrorBody(error: string)
    | NeedsAuth(error: string, jiraAuthUrl: string)
    | Boards(boards: seq<T>)

  datatype Reply<+T> = Reply(status: int, body: Body<T>)

  datatype Step =
    | GotTokens(userId: string)
    | FetchedBoards(userId: string)
    | FetchedProjectBoards(userId: string, projectKey: string)

  datatype Response<+T> = Response(steps: seq<Step>, reply: Reply<T>)

  const ScopeMismatch: string := "scope does not match"

  /** The three messages both routes read as an expired or revoked Jira grant. */
  predicate IsAuthFailure(message: string) {
    Contains(message, "401 Unauthorized") || Contains(message, "invalid_grant") || Contains(message, "access_denied")
  }

  /** `isJiraAuthError` of `/api/boards`: a scope mismatch or one of the three. */
  predicate IsJiraAuthError(message: string) {
    Contains(message, ScopeMismatch) || IsAuthFailure(message)
  }

  function NotConnected<T>(userId: string, authUrl: string -> string): (r: Reply<T>)
    ensures r.status == 401 && r.body.NeedsAuth? && r.body.jiraAuthUrl == authUrl(userId)
  {
    Reply(401, NeedsAuth("Jira not connected", authUrl(userId)))
  }

  function ReAuthenticate<T>(userId: string, authUrl: string -> string): (r: Reply<T>)
    ensures r.status == 401 && r.body.NeedsAuth? && r.body.jiraAuthUrl == authUrl(userId)
  {
    Reply(401, NeedsAuth("Jira authentication needs to be updated", authUrl(userId)))
  }

  /** `{ error: errorMessage || 'Failed to fetch boards' }` with status 500. */
  function ServerError<T>(message: string): (r: Reply<T>)
    ensures r.status == 500 && r.body.ErrorBody?
    ensures r.body.error == if message == [] then "Failed to fetch boards" else message
  {
    Reply(500, ErrorBody(if message == [] then "Failed to fetch boards" else message))
  }

  // ---------------------------------------------------------------------
  // GET /api/boards

  /** The `catch` block of `/api/boards`. */
  function BoardsCatch<T>(userId: string, e: Thrown, authUrl: string -> string): Reply<T> {
    var message := MessageOrString(e);
    if IsJiraAuthError(message) then ReAuthenticate(userId, authUrl) else ServerError(message)
  }

  /** `GET /api/boards?userId=…`; `tokens` is whether `getJiraTokens` found any. */
  function HandleBoards<T>(userId: Option<string>, tokens: Outcome<bool>, boards: Outcome<seq<T>>,
                           authUrl: string -> string): Response<T>
  {
    if !Given(userId) then Response([], Reply(400, ErrorBody("userId is required")))
    else
      var u := userId.value;
      match tokens
      case Threw(e) => Response([GotTokens(u)], BoardsCatch(u, e, authUrl))
      case Done(false) => Response([GotTokens(u)], NotConnected(u, authUrl))
      case Done(true) =>
        match boards
        case Threw(e) => Response([GotTokens(u), FetchedBoards(u)], BoardsCatch(u, e, authUrl))
        case Done(list) => Response([GotTokens(u), FetchedBoards(u)], Reply(200, Boards(list)))
  }

  // ---------------------------------------------------------------------
  // GET /api/boards-for-project

  /** The `catch` block of `/api/boards-for-project`: a scope mismatch is an empty list,
      checked before the three grant failures. */
  function ProjectBoardsCatch<T>(userId: string, e: Thrown, authUrl: string -> string): Reply<T> {
    var message := MessageOrString(e);
    if Contains(message, ScopeMismatch) then Reply(200, Boards([]))
    else if IsAuthFailure(message) then ReAuthenticate(userId, authUrl)
    else ServerError(message)
  }

  /** `GET /api/boards-for-project?userId=…&projectKey=…`. */
  function HandleProjectBoards<T>(userId: Option<string>, projectKey: Option<string>, tokens: Outcome<bool>,
                                  boards: Outcome<seq<T>>, authUrl: string -> string): Response<T>
  {
    if !Given(userId) then Response([], Reply(400, ErrorBody("userId is required")))
    else if !Given(projectKey) then Response([], Reply(400, ErrorBody("projectKey is required")))
    else
      var u, p := userId.value, projectKey.value;
      match tokens
      case Threw(e) => Response([GotTokens(u)], ProjectBoardsCatch(u, e, authUrl))
      case Done(false) => Response([GotTokens(u)], NotConnected(u, authUrl))
      case Done(true) =>
        match boards
        case Threw(e) => Response([GotTokens(u), FetchedProjectBoards(u, p)], ProjectBoardsCatch(u, e, authUrl))
        case Done(list) => Response([GotTokens(u), FetchedProjectBoards(u, p)], Reply(200, Boards(list)))
  }

  // ---------------------------------------------------------------------
  // properties of the routes

  /** `/api/boards`: a missing user is refused with 400 and no call; without tokens the
      client is sent to connect Jira and nothing is fetched; the list is returned only
      after the tokens were found. */
  lemma BoardsGuards<T>(userId: Option<string>, tokens: Outcome<bool>, boards: Outcome<seq<T>>,
                        authUrl: string -> string)
    ensures var r := HandleBoards(userId, tokens, boards, authUrl);
            && (!Given(userId) ==> r == Response([], Reply(400, ErrorBody("userId is required"))))
            && (Given(userId) && tokens == Done(false) ==>
                  r == Response([GotTokens(userId.value)], NotConnected(userId.value, authUrl)))
            && (r.reply.body.Boards? ==> tokens == Done(true) && boards == Done(r.reply.body.boards)
                                         && r.steps == [GotTokens(userId.value), FetchedBoards(userId.value)])
  {
  }

  /** `/api/boards`: a thrown error asks for authentication again exactly when its message
      names one of the four Jira failures; any other error is a 500 with its message, or
      the fallback text when the message is empty. */
  lemma BoardsErrorClassification<T>(userId: string, tokens: Outcome<bool>, boards: Outcome<seq<T>>,
                                     authUrl: string -> string, e: Thrown)
    requires userId != []
    requires tokens == Threw(e) || (tokens == Done(true) && boards == Threw(e))
    ensures var r := HandleBoards(Some(userId), tokens, boards, authUrl).reply;
            var message := MessageOrString(e);
            && (r.status == 401 <==> IsJiraAuthError(message))
            && (r.status == 401 ==> r == ReAuthenticate(userId, authUrl))
            && (r.status != 401 ==> r == ServerError(message))
  {
  }

  /** `/api/boards-for-project`: the user is checked before the project key, each missing
      one refused with 400 and no call; without tokens the client is sent to connect
      Jira. */
  lemma ProjectBoardsGuards<T>(userId: Option<string>, projectKey: Option<string>, tokens: Outcome<bool>,
                               boards: Outcome<seq<T>>, authUrl: string -> string)
    ensures var r := HandleProjectBoards(userId, projectKey, tokens, boards, authUrl);
            && (!Given(userId) ==> r == Response([], Reply(400, ErrorBody("userId is required"))))
            && (Given(userId) && !Given(projectKey) ==>
                  r == Response([], Reply(400, ErrorBody("projectKey is required"))))
            && (Given(userId) && Given(projectKey) && tokens == Done(false) ==>
                  r == Response([GotTokens(userId.value)], NotConnected(userId.value, authUrl)))
  {
  }

  /** `/api/boards-for-project`: a scope mismatch is answered with an empty list whatever
      else the message says; otherwise the three grant failures ask for authentication
      again and anything else is a 500. */
  lemma ProjectBoardsErrorClassification<T>(userId: string, projectKey: string, tokens: Outcome<bool>,
                                            boards: Outcome<seq<T>>, authUrl: string -> string, e: Thrown)
    requires userId != [] && projectKey != []
    requires tokens == Threw(e) || (tokens == Done(true) && boards == Threw(e))
    ensures var r := HandleProjectBoards(Some(userId), Some(projectKey), tokens, boards, authUrl).reply;
            var message := MessageOrString(e);
            && (Contains(message, ScopeMismatch) <==> r == Reply(200, Boards([])))
            && (r.status == 401 <==> !Contains(message, ScopeMismatch) && IsAuthFailure(message))
            && (r.status == 500 <==> !IsJiraAuthError(message))
            && (r.status == 500 ==> r == ServerError(message))
  {
  }

  /** The two routes part ways on a scope mismatch: the same error asks for
      authentication again from `/api/boards` and is an empty list from
      `/api/boards-for-project`. */
  lemma RoutesDifferOnScope<T>(userId: string, projectKey: string, authUrl: string -> string, e: Thrown)
    requires userId != [] && projectKey != [] && Contains(MessageOrString(e), ScopeMismatch)
    ensures HandleBoards<T>(Some(userId), Done(true), Threw(e), authUrl).reply.status == 401
    ensures HandleProjectBoards<T>(Some(userId), Some(projectKey), Done(true), Threw(e), authUrl).reply
         == Reply(200, Boards([]))
  {
  }
}

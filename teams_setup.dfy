/**
 * The Teams setup flow: which step `setup` shows, the dispatch of the setup card
 * actions, the board list reply, and reading a board selection back.
 *
 * The user lookup, the token check, the stored configuration, the board list and the
 * random OAuth state are inputs, and so are the outcomes of sending the selection card
 * and of storing a selection. A handler's behaviour is the sequence of its effects: the
 * messages it sends, the selection it stores and, since neither these handlers nor
 * `bot.ts` catch, a thrown value that escapes.
 */
module TeamsSetup {
  import opened Wrappers
  import opened Text
  import opened Calls
  import opened TeamsCards
  import JiraClient

  datatype Effect =
    | SentText(text: string)
    | SentCard(card: Card)
    | SavedSelection(userId: string, boardId: Option<int>, boardName: string, projectKey: Option<string>)
    | Escaped(thrown: Thrown)

  // ---------------------------------------------------------------------
  // the setup command

  datatype SetupStep = ConnectJira | ChooseBoard | ShowConfigured(boardName: string, projectKey: string)

  /** Without a valid token the user connects Jira whatever is stored; with one but no
      stored board the user picks a board; otherwise the stored choice is shown, with
      `Unknown` for an empty name or key. */
  function SetupDecision(hasJira: bool, config: Option<JiraClient.JiraConfig>): (step: SetupStep)
    ensures !hasJira ==> step == ConnectJira
    ensures hasJira && (config.None? || !Truthy(config.value.boardId)) ==> step == ChooseBoard
    ensures step.ShowConfigured? ==>
              && hasJira && config.Some? && Truthy(config.value.boardId)
              && step.boardName == OrElse(config.value.boardName, "Unknown")
              && step.projectKey == OrElse(config.value.projectKey, "Unknown")
  {
    if !hasJira then ConnectJira
    else if config.None? || !Truthy(config.value.boardId) then ChooseBoard
    else ShowConfigured(OrElse(config.value.boardName, "Unknown"), OrElse(config.value.projectKey, "Unknown"))
  }

  /** The OAuth state: the random part, a colon, the user id. */
  function OAuthState(random: string, userId: string): string {
    random + ":" + userId
  }

  /** The random part is hex, so it holds no colon: the state splits into the random part
      and, after the first colon, the user id again (whatever colons it holds). */
  lemma OAuthStateCarriesUser(random: string, userId: string)
    requires ':' !in random
    ensures var parts := Split(OAuthState(random, userId), ':');
            parts[0] == random && Join(parts[1..], ':') == userId
  {
    SplitAfterHead(random, ':', userId);
    assert OAuthState(random, userId) == random + [':'] + userId;
    JoinSplit(userId, ':');
  }

  const NoBoardsTitle: string := "No Boards Found"
  const NoBoardsText: string := "No Jira boards were found. Make sure you have access to at least one board."
  const FetchErrorTitle: string := "Error Fetching Boards"

  /** `showBoardSelectionCard`: the board list, then the selection card for a non-empty
      list or a notice for an empty one. Everything is inside the `try`: a failed board
      fetch, or a failed send of the selection card (`shown`), is answered by the error
      card with the thrown message. */
  function ShowBoardSelection(boards: Outcome<seq<Project>>, shown: Outcome<()>): (r: seq<Effect>)
    ensures 1 <= |r| <= 2 && forall k :: 0 <= k < |r| ==> r[k].SentCard?
    ensures boards == Done([]) ==> r == [SentCard(ErrorCard(NoBoardsTitle, NoBoardsText))]
    ensures boards.Done? && boards.value != [] ==> r[0].card == BoardSelectionCard(boards.value)
    ensures boards.Threw? ==> r == [SentCard(ErrorCard(FetchErrorTitle, MessageOr(boards.thrown, "Unknown error")))]
    ensures |r| == 2 <==> boards.Done? && boards.value != [] && shown.Threw?
    ensures |r| == 2 ==> r[1].card == ErrorCard(FetchErrorTitle, MessageOr(shown.thrown, "Unknown error"))
  {
    match boards
    case Threw(e) => [SentCard(ErrorCard(FetchErrorTitle, MessageOr(e, "Unknown error")))]
    case Done(ps) =>
      if |ps| == 0 then [SentCard(ErrorCard(NoBoardsTitle, NoBoardsText))]
      else
        match shown
        case Done(_) => [SentCard(BoardSelectionCard(ps))]
        case Threw(e) => [SentCard(BoardSelectionCard(ps)), SentCard(ErrorCard(FetchErrorTitle, MessageOr(e, "Unknown error")))]
  }

  /** A selection card is never empty: the first card offers a choice exactly when the
      list was fetched and is not empty. */
  lemma SelectionCardNeverEmpty(boards: Outcome<seq<Project>>, shown: Outcome<()>)
    ensures OfferedChoices(ShowBoardSelection(boards, shown)[0].card) != [] <==> boards.Done? && boards.value != []
  {
    if boards.Done? && boards.value != [] {
      BoardSelectionOffersEachProject(boards.value);
    }
  }

  /** `handleSetupCommand`: the card of the decided step. */
  function SetupCommand(userId: string, hasJira: bool, config: Option<JiraClient.JiraConfig>, random: string,
                        buildAuthUrl: string -> string, boards: Outcome<seq<Project>>,
                        shown: Outcome<()>): (r: seq<Effect>)
    ensures 1 <= |r| <= 2 && forall k :: 0 <= k < |r| ==> r[k].SentCard?
    ensures SetupDecision(hasJira, config) == ConnectJira ==>
              r == [SentCard(ConnectJiraCard(buildAuthUrl(OAuthState(random, userId))))]
    ensures SetupDecision(hasJira, config) == ChooseBoard ==> r == ShowBoardSelection(boards, shown)
    ensures SetupDecision(hasJira, config).ShowConfigured? ==>
              var step := SetupDecision(hasJira, config);
              r == [SentCard(AlreadyConfiguredCard(Some(step.boardName), Some(step.projectKey)))]
  {
    match SetupDecision(hasJira, config)
    case ConnectJira => [SentCard(ConnectJiraCard(buildAuthUrl(OAuthState(random, userId))))]
    case ChooseBoard => ShowBoardSelection(boards, shown)
    case ShowConfigured(name, key) => [SentCard(AlreadyConfiguredCard(Some(name), Some(key)))]
  }

  /** Without a token the connect card is sent whatever is stored, and it links to the
      authorisation URL of a state that names the user. */
  lemma NoTokenConnects(userId: string, config: Option<JiraClient.JiraConfig>, random: string,
                        buildAuthUrl: string -> string, boards: Outcome<seq<Project>>, shown: Outcome<()>)
    ensures SetupCommand(userId, false, config, random, buildAuthUrl, boards, shown)
            == [SentCard(ConnectJiraCard(buildAuthUrl(random + ":" + userId)))]
  {
  }

  /** With a token and a stored board the current choice is shown, and neither of its
      facts is ever empty. */
  lemma ConfiguredShowsStoredChoice(userId: string, config: JiraClient.JiraConfig, random: string,
                                    buildAuthUrl: string -> string, boards: Outcome<seq<Project>>,
                                    shown: Outcome<()>)
    requires Truthy(config.boardId)
    ensures var r := SetupCommand(userId, true, Some(config), random, buildAuthUrl, boards, shown);
            var facts := FactsOf(r[0].card);
            && |facts| == 2
            && facts[0] == Fact("Board", Some(OrElse(config.boardName, "Unknown")))
            && facts[1] == Fact("Project", Some(OrElse(config.projectKey, "Unknown")))
            && facts[0].value.value != [] && facts[1].value.value != []
  {
  }

  // ---------------------------------------------------------------------
  // reading a selection back

  /** `const [boardId, projectKey, ...boardNameParts] = selection.split(':')`, the board
      id read by `parseInt(boardId, 10)` (`None` for `NaN`) and the name parts joined
      again with `:`. A selection with no colon has no project key (`undefined`). */
  datatype Selection = Selection(boardId: Option<int>, projectKey: Option<string>, boardName: string)

  function DecodeSelection(selection: string): Selection {
    var parts := Split(selection, ':');
    Selection(ParseInt(parts[0]),
              if |parts| >= 2 then Some(parts[1]) else None,
              if |parts| > 2 then Join(parts[2..], ':') else "")
  }

  /** The value splits at its first two colons; every later colon stays in the name. */
  lemma DecodeSplitsAtFirstTwo(a: string, b: string, c: string)
    requires ':' !in a && ':' !in b
    ensures DecodeSelection(a + ":" + b + ":" + c) == Selection(ParseInt(a), Some(b), c)
  {
    assert a + ":" + b + ":" + c == a + [':'] + (b + [':'] + c);
    SplitAfterHead(a, ':', b + [':'] + c);
    SplitAfterHead(b, ':', c);
    JoinSplit(c, ':');
    var parts := Split(a + ":" + b + ":" + c, ':');
    assert parts == [a] + ([b] + Split(c, ':'));
    assert parts[2..] == Split(c, ':');
  }

  /** A selection without a colon is all board id: no key and an empty name. */
  lemma DecodeWithoutColon(s: string)
    requires ':' !in s
    ensures DecodeSelection(s) == Selection(ParseInt(s), None, "")
  {
    SplitWithoutSeparator(s);
  }

  lemma {:induction false} SplitWithoutSeparator(s: string)
    requires ':' !in s
    ensures Split(s, ':') == [s]
  {
    if s != [] {
      SplitWithoutSeparator(s[1..]);
      assert [s[0]] + s[1..] == s;
    }
  }

  /** Decoding the value of a choice recovers the project: its id in base 10, its key
      and its full name, whenever the id is a string of digits and the key has no colon. */
  lemma DecodeEncode(p: Project)
    requires p.id != [] && forall i :: 0 <= i < |p.id| ==> IsDigit(p.id[i])
    requires ':' !in p.key
    ensures DecodeSelection(EncodeSelection(p)) == Selection(Some(DigitsValue(p.id)), Some(p.key), p.name)
  {
    assert ':' !in p.id by {
      forall i | 0 <= i < |p.id| ensures p.id[i] != ':' {
        assert IsDigit(p.id[i]);
      }
    }
    DecodeSplitsAtFirstTwo(p.id, p.key, p.name);
    ParseIntOfDigits(p.id, []);
    assert p.id + [] == p.id;
  }

  /** `handleBoardSelection`: an empty selection asks again and stores nothing;
      otherwise the decoded choice is stored (`stored` is the outcome of
      `updateBoardSelection`), then confirmed. Nothing catches a failed store: the thrown
      value escapes and no confirmation is sent. */
  function BoardSelection(userId: string, selection: Option<string>, stored: Outcome<()>): (r: seq<Effect>)
    ensures selection.None? || selection.value == [] ==> r == [SentText("Please select a board.")]
    ensures selection.Some? && selection.value != [] ==>
              var d := DecodeSelection(selection.value);
              && |r| == 2 && r[0] == SavedSelection(userId, d.boardId, d.boardName, d.projectKey)
              && (stored.Done? ==> r[1] == SentCard(SetupCompleteCard(d.boardName, d.projectKey)))
              && (stored.Threw? ==> r[1] == Escaped(stored.thrown))
  {
    if selection.None? || selection.value == [] then [SentText("Please select a board.")]
    else
      var d := DecodeSelection(selection.value);
      [SavedSelection(userId, d.boardId, d.boardName, d.projectKey)]
      + match stored
        case Done(_) => [SentCard(SetupCompleteCard(d.boardName, d.projectKey))]
        case Threw(e) => [Escaped(e)]
  }

  /** Picking the `i`-th choice of the selection card stores that project's id, name and
      key, and the confirmation shows exactly Board = its name and Project = its key. */
  lemma ChoosingAProject(userId: string, projects: seq<Project>, i: nat, stored: Outcome<()>)
    requires i < |projects|
    requires projects[i].id != [] && forall j :: 0 <= j < |projects[i].id| ==> IsDigit(projects[i].id[j])
    requires ':' !in projects[i].key
    ensures var p := projects[i];
            var r := BoardSelection(userId, Some(OfferedChoices(BoardSelectionCard(projects))[i].value), stored);
            && |r| == 2 && r[0] == SavedSelection(userId, Some(DigitsValue(p.id)), p.name, Some(p.key))
            && (stored.Done? ==> FactsOf(r[1].card) == [Fact("Board", Some(p.name)), Fact("Project", Some(p.key))])
  {
    var p := projects[i];
    BoardSelectionOffersEachProject(projects);
    DecodeEncode(p);
    assert EncodeSelection(p) != [];
  }

  // ---------------------------------------------------------------------
  // card actions

  datatype SetupAction = RerunSetup | ChangeBoard | SelectBoard | NoAction

  /** The `switch` of `handleSetupAction`: three actions have a handler, any other does
      nothing. */
  function DispatchSetupAction(action: string): (a: SetupAction)
    ensures a == RerunSetup <==> action == "setup"
    ensures a == ChangeBoard <==> action == "changeBoard"
    ensures a == SelectBoard <==> action == "selectBoard"
  {
    if action == "setup" then RerunSetup
    else if action == "changeBoard" then ChangeBoard
    else if action == "selectBoard" then SelectBoard
    else NoAction
  }

  /** `handleSetupAction`: `setup` runs the setup command again, `changeBoard` shows the
      board list, `selectBoard` reads `data.boardSelection`. */
  function SetupActionEffects(action: string, userId: string, hasJira: bool,
                              config: Option<JiraClient.JiraConfig>, random: string,
                              buildAuthUrl: string -> string, boards: Outcome<seq<Project>>,
                              shown: Outcome<()>, selection: Option<string>, stored: Outcome<()>): (r: seq<Effect>)
    ensures action == "setup" ==> r == SetupCommand(userId, hasJira, config, random, buildAuthUrl, boards, shown)
    ensures action == "changeBoard" ==> r == ShowBoardSelection(boards, shown)
    ensures action == "selectBoard" ==> r == BoardSelection(userId, selection, stored)
    ensures action != "setup" && action != "changeBoard" && action != "selectBoard" ==> r == []
    ensures action != "selectBoard" ==> |r| <= 2 && forall k :: 0 <= k < |r| ==> r[k].SentCard?
  {
    match DispatchSetupAction(action)
    case RerunSetup => SetupCommand(userId, hasJira, config, random, buildAuthUrl, boards, shown)
    case ChangeBoard => ShowBoardSelection(boards, shown)
    case SelectBoard => BoardSelection(userId, selection, stored)
    case NoAction => []
  }

  /** Any other action sends nothing and stores nothing. */
  lemma OtherActionsDoNothing(action: string, userId: string, hasJira: bool,
                              config: Option<JiraClient.JiraConfig>, random: string,
                              buildAuthUrl: string -> string, boards: Outcome<seq<Project>>,
                              shown: Outcome<()>, selection: Option<string>, stored: Outcome<()>)
    requires action != "setup" && action != "changeBoard" && action != "selectBoard"
    ensures SetupActionEffects(action, userId, hasJira, config, random, buildAuthUrl, boards, shown, selection, stored) == []
  {
  }

  /** Only `selectBoard` with a non-empty selection stores a board. */
  lemma OnlySelectionStores(action: string, userId: string, hasJira: bool,
                            config: Option<JiraClient.JiraConfig>, random: string,
                            buildAuthUrl: string -> string, boards: Outcome<seq<Project>>,
                            shown: Outcome<()>, selection: Option<string>, stored: Outcome<()>, k: nat)
    requires var r := SetupActionEffects(action, userId, hasJira, config, random, buildAuthUrl, boards, shown, selection, stored);
             k < |r| && r[k].SavedSelection?
    ensures action == "selectBoard" && selection.Some? && selection.value != []
  {
  }
}

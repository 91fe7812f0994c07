# standup-generator: a Dafny model of the report pipeline and its front ends

standup-generator builds a weekly stand-up report from a user's recent Jira tickets.
The report is written by a language model and delivered in three places: a Slack
slash command, a Microsoft Teams bot, and a web dashboard. This project models the
core of that system and proves properties about it.

- **Report generation** (`Generate`, `DueDates`):
  - choosing the system prompt;
  - reading the model's answer;
  - extracting the ticket names from the first fenced JSON block;
  - cutting every block out of the report;
  - the relative due-date labels ("Overdue", "Due tomorrow", "Due next Friday", …).
- **Jira client** (`JiraClient`):
  - the API base URL;
  - the three phases of `fetchTickets`: the search, the filter on recent or active issues, and the per-issue details;
  - the conversion of an issue reply into a ticket;
  - the flattening of Atlassian Document Format comments.
- **Markdown adapters** (`Markdown`): the same markdown report rewritten for Slack, for Teams cards, as HTML and as plain text. Each regex is a hand-written rewriter.
- **Teams** (`TeamsCards`, `TeamsSetup`, `TeamsBot`, `TeamsStandup`):
  - the setup flow's decision, the board-selection card and the encoding of its values;
  - message routing and the removal of the bot's @-mention;
  - the greeting loop;
  - the `standup` command.
- **Slack** (`SlackStandup`): the `/weekly-standup` command.
- **Shared standup steps** (`StandupFlow`): the ordered calls both chat commands make, with their early returns and thrown errors.
- **Web** (`WebGenerate`, `WebBoards`, `Dashboard`):
  - `POST /api/generate`, including the grouping of tickets by status and the optional board-name lookup;
  - the two board-list routes and how they classify errors;
  - the request the dashboard posts.
- **Database client** (`Supabase`): the URL/key project check and the cached client of `getSupabase`.

## How calls are modelled

The handlers are `async` functions. Each one is modelled as a pure function of what its
awaited calls produce. An awaited call whose failure the code reacts to, or lets escape, is
an input `Outcome<T>`: `Done(value)` or `Threw(e)`. The calls taken to succeed are listed
under "Left out". In the Jira client (`JiraClient`), each request to the Jira
API is an input `Reply<T>`: the parsed body, the text of a failed response, or the message
of an `Error` thrown before a body was read (by the token lookup of `getJiraHeaders`, by
`fetch` or by `response.json()`). A handler's result records the calls it made and the messages it sent, in
order. That lets the contracts say things like "the model is asked only when there are
tickets" or "the report is sent only after the names were saved".

Three kinds of code follow the source's own form:

- Loops over mutable state are methods proved against a specification function:
  - `WebGenerate.GroupByStatus`;
  - `WebGenerate.LookUpBoardName`;
  - `TeamsBot.RemoveBotMention`;
  - `TeamsBot.GreetMembers`.
- The module-level client cache is a class, `Supabase.SupabaseHolder`.
- Everything else in the source computes values, and is modelled with functions.

Some things are parameters of the model:

- the environment;
- `JSON.parse`;
- base64 decoding;
- date parsing;
- the authorisation-URL builder;
- the random OAuth state.

## Model

| member | source | states |
|---|---|---|
| Calls.MessageOr | apps/teams/src/lib/teams/handlers/standup.ts:93-94 | An `Error`'s message; for any other thrown value, the fallback text |
| Calls.MessageOrString | apps/web/src/app/api/boards/route.ts:38 | An `Error`'s message; for any other thrown value, its `String(...)` form |
| Generate.ChooseSystemPrompt | packages/core/src/claude/generate.ts:27 | A missing or empty custom formatting falls back to the default prompt; a non-empty one is used as it is |
| Generate.FirstBlock | packages/core/src/claude/generate.ts:74 | The block starts at the first "```json" and closes at the first "```" after it; there is no block when no closing fence follows that first opening |
| Generate.JsonCapture | packages/core/src/claude/generate.ts:74-77 | The capture is the first block's body with white space trimmed at both ends; without a block there is no capture |
| Generate.MergeCaptured | packages/core/src/claude/generate.ts:79-84 | The result holds every existing key and every parsed key, and a parsed value wins; with no capture, or a parse failure, the result is the existing names |
| Generate.ExtractedNames | packages/core/src/claude/generate.ts:70-85 | `extractTicketNames` either copies the existing names (no block, or the block does not parse) or merges the parsed block over them |
| Generate.FirstBlockParsed | packages/core/src/claude/generate.ts:74-84 | In `pre + block(body) + post`, the text that is parsed is `body` trimmed |
| Generate.SecondBlockIgnored | packages/core/src/claude/generate.ts:74-84 | A second block has no effect on the extracted names |
| Generate.SameCaptureSameNames | packages/core/src/claude/generate.ts:70-85 | The names depend on the answer only through its capture |
| Generate.StripJsonBlocks | packages/core/src/claude/generate.ts:62 | Cutting blocks never lengthens the text; text with no complete block is unchanged |
| Generate.StripCompleteBlock | packages/core/src/claude/generate.ts:62 | A complete block is cut out together with both fences, and the scan continues after it |
| Generate.UnclosedBlockKept | packages/core/src/claude/generate.ts:62 | An opening fence with no closing fence after it stays in the report |
| Generate.StripCanLeaveBlock | packages/core/src/claude/generate.ts:62 | Cutting one block can splice its neighbours into a new "```json```", so the stripped report is not always free of blocks |
| Generate.ResponseText | packages/core/src/claude/generate.ts:55-56 | The text of the first content block when it is a text block; `''` for any other block; the access throws on empty content |
| Generate.GenerateStandupReport | packages/core/src/claude/generate.ts:13-65 | The report is the answer's text with blocks cut out and then trimmed; the new names are the names extracted from that text |
| Generate.GenerateCall | packages/core/src/claude/generate.ts:13-65 | A failed API call is rethrown; empty content throws the `TypeError`; otherwise the call gives the generated report |
| Generate.ReportThenNames | packages/core/src/claude/generate.ts:13-85 | For an answer of the form "report, then one names block", the report comes back trimmed without the block, and the names are the parsed names merged over the existing ones |
| Generate.NoBlockAnswer | packages/core/src/claude/generate.ts:59-62 | An answer with no backquote keeps the existing names and is only trimmed |
| DueDates.FormatRelativeDueDate | packages/core/src/claude/generate.ts:110-142 | A missing or empty date gives `null`; an unparsable one falls through to the MM/DD line; otherwise the label is the one the day difference and today's weekday select |
| DueDates.EndOfWeek | packages/core/src/claude/generate.ts:126-128 | The end of the week is a Sunday, 1 to 7 days after today |
| DueDates.CategoryMonotone | packages/core/src/claude/generate.ts:118-141 | A later due date never gets an earlier category |
| DueDates.WeekWindows | packages/core/src/claude/generate.ts:126-139 | "Due <weekday>" covers exactly the days from day 2 through the end of the week; "Due next <weekday>" covers exactly the seven days after that |
| DueDates.ThisWeekIsLaterThisWeek | packages/core/src/claude/generate.ts:130-132 | The plain weekday label names a later day of this week, or the Sunday that ends it |
| DueDates.SaturdayHasNoThisWeek | packages/core/src/claude/generate.ts:124-132 | On a Saturday no date gets the plain weekday label |
| DueDates.SundayReachesNextSunday | packages/core/src/claude/generate.ts:126-132 | On a Sunday, a date 7 days away is labelled "Due Sunday" |
| DueDates.Pad2 | packages/core/src/claude/generate.ts:141 | Writes 0 to 99 as exactly two digits |
| DueDates.Pad2Digits | packages/core/src/claude/generate.ts:141 | Reading back the two digits gives the number |
| DueDates.CeilDays | packages/core/src/claude/generate.ts:118-120 | The smallest whole number of days not below the interval |
| DueDates.FallBackSkipsTomorrow | packages/core/src/claude/generate.ts:118-124 | Across the autumn clock change, tomorrow's date is not labelled "Due tomorrow" (see Findings) |
| DueDates.RoundedDiffIsDayDifference | packages/core/src/claude/generate.ts:118-120 | Rounding the same quotient gives the calendar day difference whenever the shift is under half a day |
| DueDates.DateOnlyWestOfUtc | packages/core/src/claude/generate.ts:113-122 | West of UTC, a date-only due date of today is labelled "Overdue" (see Findings) |
| DueDates.WrittenDayLabels | packages/core/src/claude/generate.ts:122-124 | Read as the local day it names, today's date is "Due today" and tomorrow's is "Due tomorrow" |
| JiraClient.ApiUrl | packages/core/src/jira/client.ts:58-64 | Throws exactly when no configuration is stored; otherwise the API root followed by the cloud id |
| JiraClient.ExtractTextCases | packages/core/src/jira/client.ts:311-321 | A falsy value gives `''`; a string is kept as it is; a text node gives its text or `''`; any other node gives its children flattened in order |
| JiraClient.ExtractAllAppend | packages/core/src/jira/client.ts:316-318 | Flattening two lists of children is the concatenation of their flattenings |
| JiraClient.ParagraphOfTexts | packages/core/src/jira/client.ts:311-321 | A paragraph of two text nodes reads as the two texts joined |
| JiraClient.ContainerAddsNothing | packages/core/src/jira/client.ts:316-318 | A non-text node adds nothing of its own around its children |
| JiraClient.NeedingDetails | packages/core/src/jira/client.ts:233-239 | An issue is kept exactly when it was updated since the cutoff or is "In Progress" or "To Do"; the result is never longer than the input |
| JiraClient.NeedingDetailsAppend | packages/core/src/jira/client.ts:233-239 | The filter works element by element, so it keeps the issues' order |
| JiraClient.NeedingDetailsKeepsPassing | packages/core/src/jira/client.ts:233-239 | Issues that all pass the test are kept unchanged |
| JiraClient.NeedingDetailsIdempotent | packages/core/src/jira/client.ts:233-239 | Filtering twice gives the same list as filtering once |
| JiraClient.ToComment | packages/core/src/jira/client.ts:290-294 | The author is "Unknown" exactly when the display name is missing or empty; the body is the flattened ADF; `created` is copied |
| JiraClient.RecentComments | packages/core/src/jira/client.ts:288-294 | Exactly the comments created at or after the cutoff, each converted |
| JiraClient.RecentCommentsAppend | packages/core/src/jira/client.ts:288-294 | The comment filter keeps order |
| JiraClient.NoRecentComments | packages/core/src/jira/client.ts:288-289 | When no comment is recent enough, all of them are dropped |
| JiraClient.ToTicket | packages/core/src/jira/client.ts:296-305 | Key, summary and `updated` are copied; status falls back to "Unknown"; an empty assignee, description or due date is `null`; the comments are the recent ones, or none |
| JiraClient.Cutoff | packages/core/src/jira/client.ts:200-206 | A missing `daysBack` gives seven days before now; a `null` one gives now, since `getDate() - null` subtracts nothing; a number n gives n days before now |
| JiraClient.FirstFailed | packages/core/src/jira/client.ts:242-247 | The position of the first detail request that fails or throws; every request before it succeeds |
| JiraClient.FetchDetails | packages/core/src/jira/client.ts:242-272 | Succeeds exactly when every detail request succeeds, with one ticket per issue in order; otherwise fails with the first failing issue's message: "Failed to fetch ticket <key>: <text>" for a failed response, the thrown message for a throw |
| JiraClient.FetchTickets | packages/core/src/jira/client.ts:199-250 | With no configuration it throws "Jira not configured"; a failed search throws "Failed to fetch tickets: <text>"; a throw during the search passes its message on; otherwise it fetches the details of the filtered issues |
| JiraClient.OneTicketPerChosenIssue | packages/core/src/jira/client.ts:229-249 | When every detail request succeeds, there is one ticket per chosen issue, in search order |
| JiraClient.MissingIssuesIsEmpty | packages/core/src/jira/client.ts:230 | A reply with no `issues` list gives no tickets |
| Markdown.LinkParts | packages/core/src/claude/generate.ts:98 | The link pattern matches `[text](url)` with text ending at the first `]` and url ending at the first `)` after `](` |
| Markdown.NoLinkUnchanged | packages/core/src/claude/generate.ts:98 | Text with no `[` passes the link rewrite unchanged |
| Markdown.SameStyleIsIdentity | apps/teams/src/lib/teams/cards/report.ts:87 | Rewriting each link as `[$1]($2)` leaves the text unchanged |
| Markdown.RuleTablesKeepLines | packages/core/src/claude/generate.ts:100-104 | No line rule of the four adapters adds or removes a line break |
| Markdown.NewlinesToBreaksNoNewline | apps/web/src/app/dashboard/page.tsx:226 | Text without `\n` is unchanged by the `<br>` rewrite |
| Markdown.SlackLineRules | packages/core/src/claude/generate.ts:95-105 | `## X` and `### X` become `*X*`; `- X` becomes `• X` |
| Markdown.SlackOtherLine | packages/core/src/claude/generate.ts:95-105 | A line with none of the three prefixes and no link is unchanged |
| Markdown.SlackTicketLine | packages/core/src/claude/generate.ts:95-105 | `- [KEY](url) - Name` becomes `• url - Name` |
| Markdown.SlackLinkLine | apps/slack/src/lib/slack/handlers/standup.ts:112-122 | A line that is a single link becomes its URL |
| Markdown.SlackLineByLine | apps/slack/src/lib/slack/handlers/standup.ts:112-122 | The Slack adapter works line by line: the first line is rewritten alone and the rest follows |
| Markdown.SlackNotIdempotent | packages/core/src/claude/generate.ts:98 | `[a]([b](c))` becomes `[b](c)`, which a second pass turns into `c` |
| Markdown.TeamsIgnoresLinks | apps/teams/src/lib/teams/cards/report.ts:83-88 | The Teams adapter is its two heading rules only |
| Markdown.TeamsLineRules | apps/teams/src/lib/teams/cards/report.ts:85-86 | `## X` and `### X` become `**X**`; any other line is unchanged, links included |
| Markdown.TeamsLineByLine | apps/teams/src/lib/teams/cards/report.ts:83-88 | The Teams adapter works line by line |
| Markdown.HtmlHasNoNewline | apps/web/src/app/dashboard/page.tsx:215-227 | The HTML copy holds no newline |
| Markdown.HtmlLineRules | apps/web/src/app/dashboard/page.tsx:220-224 | Headings become `<strong>X</strong>`; `- X` becomes `• X`, but a bare `- ` is left alone |
| Markdown.HtmlLink | apps/web/src/app/dashboard/page.tsx:218 | A link line becomes `<a href="url">text</a>` |
| Markdown.HtmlLineByLine | apps/web/src/app/dashboard/page.tsx:215-227 | Each `\n` becomes `<br>` between separately rewritten lines |
| Markdown.PlainLineRules | apps/web/src/app/dashboard/page.tsx:233-236 | The `## ` and `### ` markers are removed; `- X` becomes `• X` |
| Markdown.PlainTicketLine | apps/web/src/app/dashboard/page.tsx:233-236 | `- [KEY](url) - Name` becomes `• KEY - Name` |
| Markdown.PlainLinkLine | apps/web/src/app/dashboard/page.tsx:233 | A line that is a single link becomes its text |
| Markdown.PlainTextNotIdempotent | apps/web/src/app/dashboard/page.tsx:233 | `[[a](u)](v)` becomes `[a](v)`, which a second pass turns into `a` |
| TeamsCards.EncodeSelection | apps/teams/src/lib/teams/cards/setup.ts:70 | A choice's value is `id:key:name` |
| TeamsCards.Choices | apps/teams/src/lib/teams/cards/setup.ts:68-71 | One choice per project, in order, titled `name (key)` |
| TeamsCards.BoardSelectionOffersEachProject | apps/teams/src/lib/teams/cards/setup.ts:44-84 | The selection card offers exactly those choices, and its one button submits `selectBoard` |
| TeamsCards.AlreadyConfiguredShowsValues | apps/teams/src/lib/teams/cards/setup.ts:137-190 | Each fact shows the stored value, or "Unknown" when it is missing or empty; the buttons submit `changeBoard` and `standup` |
| TeamsCards.ReportCardText | apps/teams/src/lib/teams/cards/report.ts:4-27 | The report card holds the title, then the Teams-formatted report; heading lines show as `**X**` |
| TeamsSetup.SetupDecision | apps/teams/src/lib/teams/handlers/setup.ts:34-52 | No valid token leads to connect; with a token but no board the user chooses a board; otherwise the stored choice is shown, with "Unknown" for empties |
| TeamsSetup.OAuthStateCarriesUser | apps/teams/src/lib/teams/handlers/setup.ts:90-91 | The state splits at its first colon back into the random part and the user id |
| TeamsSetup.ShowBoardSelection | apps/teams/src/lib/teams/handlers/setup.ts:105-141 | A failed board fetch sends only the "Error Fetching Boards" card with the thrown message; an empty list sends only the "No Boards Found" notice; a non-empty list sends the selection card, and when that send throws, the error card follows it |
| TeamsSetup.SelectionCardNeverEmpty | apps/teams/src/lib/teams/handlers/setup.ts:112-130 | A selection card that is sent always offers at least one choice |
| TeamsSetup.SetupCommand | apps/teams/src/lib/teams/handlers/setup.ts:23-53 | For the connect decision, sends only the connect card with the auth link for state `random:userId`; for the board decision, the effects of the board list; for the configured decision, only the already-configured card with the stored name and key |
| TeamsSetup.NoTokenConnects | apps/teams/src/lib/teams/handlers/setup.ts:34-38 | Without a token the connect card is sent, linking to a state that names the user |
| TeamsSetup.ConfiguredShowsStoredChoice | apps/teams/src/lib/teams/handlers/setup.ts:40-52 | With a token and a stored board, the stored name and key are shown, never empty |
| TeamsSetup.DecodeSplitsAtFirstTwo | apps/teams/src/lib/teams/handlers/setup.ts:157-158 | The selection splits at its first two colons; later colons stay in the name |
| TeamsSetup.DecodeWithoutColon | apps/teams/src/lib/teams/handlers/setup.ts:157-158 | Without a colon there is no project key and the name is empty |
| TeamsSetup.DecodeEncode | apps/teams/src/lib/teams/handlers/setup.ts:157-162 | Decoding a choice's value gives back the project's id, key and full name |
| TeamsSetup.BoardSelection | apps/teams/src/lib/teams/handlers/setup.ts:146-172 | An empty or missing selection only asks again and stores nothing; otherwise the decoded choice is stored, then the setup-complete card is sent when the store succeeded, and a failed store escapes with no confirmation |
| TeamsSetup.ChoosingAProject | apps/teams/src/lib/teams/handlers/setup.ts:146-172 | Picking the i-th choice stores that project and, when the store succeeds, confirms its name and key |
| TeamsSetup.DispatchSetupAction | apps/teams/src/lib/teams/handlers/setup.ts:67-79 | `setup`, `changeBoard` and `selectBoard` have handlers; any other action has none |
| TeamsSetup.SetupActionEffects | apps/teams/src/lib/teams/handlers/setup.ts:58-80 | `setup` has the effects of the setup command, `changeBoard` of the board list, `selectBoard` of the board selection; any other action has none; every action but `selectBoard` sends at most two cards and stores nothing |
| TeamsSetup.OtherActionsDoNothing | apps/teams/src/lib/teams/handlers/setup.ts:67-79 | An unknown action sends nothing and stores nothing |
| TeamsSetup.OnlySelectionStores | apps/teams/src/lib/teams/handlers/setup.ts:58-80 | Only `selectBoard` with a non-empty selection stores a board |
| TeamsBot.CardActionRoute | apps/teams/src/lib/teams/bot.ts:54-72 | The three setup actions go to setup; `standup` goes to the standup command; anything else is answered with its name |
| TeamsBot.NormaliseText | apps/teams/src/lib/teams/bot.ts:78 | The text is trimmed and lower-cased; `''` when there is none |
| TeamsBot.Mentions | apps/teams/src/lib/teams/bot.ts:114-116 | An entity is kept exactly when it is a `mention`, never more entities than given; none without entities |
| TeamsBot.MentionsAppend | apps/teams/src/lib/teams/bot.ts:114-116 | The filter keeps order: the mentions of two lists in a row are those of the first, then those of the second |
| TeamsBot.MentionsOne | apps/teams/src/lib/teams/bot.ts:114-116 | A single entity is kept exactly when its type is `mention` |
| TeamsBot.RemoveBotMention | apps/teams/src/lib/teams/bot.ts:113-132 | The loop's result equals the specification that applies the mentions one after another |
| TeamsBot.OtherMentionsKeepText | apps/teams/src/lib/teams/bot.ts:123-129 | Mentions of anyone but the bot leave the text exactly as it was |
| TeamsBot.NoMentionKeepsText | apps/teams/src/lib/teams/bot.ts:118-120 | Without mention entities the text is returned unchanged |
| TeamsBot.LeadingMentionStripped | apps/teams/src/lib/teams/bot.ts:123-129 | "<mention> command" leaves only the command |
| TeamsBot.MessageRoute | apps/teams/src/lib/teams/bot.ts:84-107 | `setup`; `standup`, `weekly` and `report`; `help` or empty; anything else gets a hint |
| TeamsBot.OnMessage | apps/teams/src/lib/teams/bot.ts:24-32 | A card submission is routed by its action; any other message by its cleaned text |
| TeamsBot.MentionThenCommand | apps/teams/src/lib/teams/bot.ts:24-108 | "@Bot standup" is routed as `standup`, whatever the case of the mention |
| TeamsBot.GreetMembers | apps/teams/src/lib/teams/bot.ts:35-48 | The loop greets exactly the specification's members, in order |
| TeamsBot.GreetedAreTheOthers | apps/teams/src/lib/teams/bot.ts:38-45 | Every added member except the bot is greeted, as often as they appear; the bot is never greeted |
| StandupFlow.RunWith | apps/slack/src/lib/slack/handlers/standup.ts:30-85 | A run starts with the user lookup and ends with a stop reason |
| StandupFlow.EarlyReturns | apps/slack/src/lib/slack/handlers/standup.ts:35-69 | Each early return (not connected, no board, no tickets) happens exactly when its condition holds |
| StandupFlow.ModelAskedOnlyWithTickets | apps/slack/src/lib/slack/handlers/standup.ts:62-79 | The model is asked only after the token and configuration checks passed, and only with a non-empty ticket list |
| StandupFlow.GeneratedReport | apps/slack/src/lib/slack/handlers/standup.ts:72-82 | A report is produced only when every call succeeded; the names saved are the ones extracted from the model's text |
| StandupFlow.HappyRun | apps/slack/src/lib/slack/handlers/standup.ts:30-85 | When every call succeeds, the run is the seven calls in order |
| StandupFlow.RunWithReport | apps/slack/src/lib/slack/handlers/standup.ts:30-85 | The run when every call succeeds, for a given generator result |
| StandupFlow.ThrowStops | apps/slack/src/lib/slack/handlers/standup.ts:30-103 | For each awaited call (user, token check, configuration, tickets, names, the model through the generator, the save), a throw once every call before it succeeded stops the run with that thrown value, and that call is the last one made |
| SlackStandup.HandleStandup | apps/slack/src/lib/slack/handlers/standup.ts:17-105 | The trace acknowledges, says it is working, makes the run's calls, then answers |
| SlackStandup.FinalAnswer | apps/slack/src/lib/slack/handlers/standup.ts:36-103 | For every run of the shared steps, the last answer names the reason the run stopped; the confirmation comes exactly when everything succeeded |
| SlackStandup.ErrorTextIsNotSent | apps/slack/src/lib/slack/handlers/standup.ts:40-102 | No error answer equals the confirmation |
| SlackStandup.DirectMessageAfterSave | apps/slack/src/lib/slack/handlers/standup.ts:82-85 | The DM goes to the command's user only after the names were saved, and holds the Slack-formatted report |
| SlackStandup.HappyTrace | apps/slack/src/lib/slack/handlers/standup.ts:17-92 | The full trace when every call succeeds |
| SlackStandup.NotConnectedTrace | apps/slack/src/lib/slack/handlers/standup.ts:35-43 | With no token the user is told to run setup after two calls |
| TeamsStandup.HandleStandupCommand | apps/teams/src/lib/teams/handlers/standup.ts:23-107 | Sends the working message, makes the run's calls, and ends with a card |
| TeamsStandup.FinalCard | apps/teams/src/lib/teams/handlers/standup.ts:37-106 | For every run of the shared steps, the last card names the stop reason; the report card comes exactly when everything succeeded |
| TeamsStandup.CardsDiffer | apps/teams/src/lib/teams/handlers/standup.ts:37-106 | The not-connected, no-board, no-tickets, error and report cards are pairwise different |
| TeamsStandup.ReportCardAfterSave | apps/teams/src/lib/teams/handlers/standup.ts:83-89 | The report card is sent right after the names were saved, and shows the stripped report |
| TeamsStandup.HappyTrace | apps/teams/src/lib/teams/handlers/standup.ts:30-89 | The full trace when every call succeeds |
| TeamsStandup.NoTicketsTrace | apps/teams/src/lib/teams/handlers/standup.ts:59-71 | With no tickets the no-tickets card is sent after the fetch; the model is never asked |
| WebGenerate.DaysBackOrDefault | apps/web/src/app/api/generate/route.ts:14 | The default of 7 applies to a missing field only, not to `null` |
| WebGenerate.StatusOf | apps/web/src/app/api/generate/route.ts:44 | A ticket's status, or "Unknown" when it is empty |
| WebGenerate.StatusOrder | apps/web/src/app/api/generate/route.ts:43-55 | The statuses in the order they first appear, without repeats |
| WebGenerate.GroupByStatus | apps/web/src/app/api/generate/route.ts:43-55 | The `reduce` loop throws `acc[status].push is not a function` exactly when some ticket's status names a property inherited from `Object.prototype` (`constructor`, `toString`, `__proto__`, ...); otherwise it builds exactly `TicketsByStatus` and its key order |
| WebGenerate.GroupingThrowsAt | apps/web/src/app/api/generate/route.ts:43-49 | The grouping throws exactly when some ticket's status (`ticket.status || 'Unknown'`) is one of the twelve keys every `{}` inherits from `Object.prototype` |
| WebGenerate.EveryTicketInOneGroup | apps/web/src/app/api/generate/route.ts:43-55 | The groups, taken in key order, hold every ticket's summary, each exactly once |
| WebGenerate.GroupKeepsOrder | apps/web/src/app/api/generate/route.ts:49-53 | Within a group, tickets keep their relative order |
| WebGenerate.InGroup | apps/web/src/app/api/generate/route.ts:44-53 | A ticket is in its status's group |
| WebGenerate.FindBoard | apps/web/src/app/api/generate/route.ts:84 | The position of the first board with the id |
| WebGenerate.LookUpBoardName | apps/web/src/app/api/generate/route.ts:80-89 | The lookup block gives `BoardName`: a name only for a truthy id with a named board; a fetch failure is swallowed |
| WebGenerate.ValidationFirst | apps/web/src/app/api/generate/route.ts:14-22 | A missing userId, then a missing projectKey, is refused with 400 and no calls |
| WebGenerate.MissingConfig | apps/web/src/app/api/generate/route.ts:25-31 | With no configuration the route answers 400 after reading it |
| WebGenerate.FetchesRequestedTickets | apps/web/src/app/api/generate/route.ts:35-40 | Tickets are fetched for the requested project, board and days, 7 by default |
| WebGenerate.NoTicketsShortCircuit | apps/web/src/app/api/generate/route.ts:67-71 | No tickets gives the fixed message; the model is not asked and nothing is saved |
| WebGenerate.ModelAskedOnlyWithTickets | apps/web/src/app/api/generate/route.ts:67-97 | The model is asked only about the fetched, non-empty ticket list |
| WebGenerate.SavedBeforeReply | apps/web/src/app/api/generate/route.ts:92-102 | The report reaches the client only after it was saved with the project key and board name |
| WebGenerate.BoardLookupSwallowsFailure | apps/web/src/app/api/generate/route.ts:80-89 | The board list is fetched only for a truthy board id, and its failure changes nothing but the name |
| WebGenerate.ThrownGives500 | apps/web/src/app/api/generate/route.ts:103-109 | For each awaited call (body, configuration, tickets, names, formatting, the model through the generator, the save), and for the grouping's `TypeError` on an inherited status, a throw once every step before it succeeded is answered with 500 and the thrown message, or "Failed to generate report" |
| WebBoards.ServerError | apps/web/src/app/api/boards/route.ts:65-68 | 500 with the message, or "Failed to fetch boards" when the message is empty |
| WebBoards.BoardsGuards | apps/web/src/app/api/boards/route.ts:10-36 | A missing user gets 400 and no call; without tokens the client is sent to connect; the list is returned only after the tokens were found |
| WebBoards.BoardsErrorClassification | apps/web/src/app/api/boards/route.ts:37-68 | A thrown error gives 401 exactly when its message names one of the four Jira failures; otherwise 500 |
| WebBoards.ProjectBoardsGuards | apps/web/src/app/api/boards-for-project/route.ts:9-30 | The user is checked before the project key, each with 400 and no call; no tokens means connect |
| WebBoards.ProjectBoardsErrorClassification | apps/web/src/app/api/boards-for-project/route.ts:36-65 | A scope mismatch gives exactly an empty list; 401 for the three grant failures; 500 otherwise |
| WebBoards.RoutesDifferOnScope | apps/web/src/app/api/boards-for-project/route.ts:41-43 | The same scope error gives 401 from one route and an empty list from the other |
| Dashboard.NumberOf | apps/web/src/app/dashboard/page.tsx:168-169 | `Number(s)`: blank is 0, and a digit string is its value |
| Dashboard.AsField | apps/web/src/app/dashboard/page.tsx:165-170 | `JSON.stringify` writes NaN as `null`; a number stays a number |
| Dashboard.GenerateRequest | apps/web/src/app/dashboard/page.tsx:154-170 | Nothing is posted without a user and a project; `boardId` is left out exactly when no board is selected |
| Dashboard.NatString | apps/web/src/app/dashboard/page.tsx:272 | `String(n)` is a non-empty run of digits |
| Dashboard.NatStringValue | apps/web/src/app/dashboard/page.tsx:272 | Reading `String(n)`'s digits back gives n |
| Dashboard.NumberOfNatString | apps/web/src/app/dashboard/page.tsx:272 | `Number(String(n)) == n` |
| Dashboard.SevenDays | apps/web/src/app/dashboard/page.tsx:36 | The default `'7'` is sent as 7 |
| Dashboard.SelectedBoardRequest | apps/web/src/app/dashboard/page.tsx:165-170 | A board chosen from the list reaches the route as its id, and its name is looked up exactly when the id is not 0 |
| Dashboard.NoBoardRequest | apps/web/src/app/dashboard/page.tsx:168 | With no board selected, `boardId` is absent and the route does no board lookup |
| Dashboard.PostedBodyIsValid | apps/web/src/app/dashboard/page.tsx:155-170 | Every body the page posts passes the route's validation |
| Supabase.NonDotRun | packages/core/src/db/client.ts:9 | The longest run of characters other than `.` |
| Supabase.RefAt | packages/core/src/db/client.ts:9 | A capture found at a position names the project there |
| Supabase.RefAtNamed | packages/core/src/db/client.ts:9 | Where the URL names a project, the pattern captures that project |
| Supabase.FirstMatch | packages/core/src/db/client.ts:9 | The leftmost position where the pattern matches |
| Supabase.ProjectRefFromUrl | packages/core/src/db/client.ts:8-11 | A result names a project the URL contains; `null` means the URL names none |
| Supabase.UrlRefIsLeftmost | packages/core/src/db/client.ts:8-11 | The leftmost occurrence of `https://<ref>.supabase.co` decides the result |
| Supabase.ProjectUrl | packages/core/src/db/client.ts:6-11 | `https://<ref>.supabase.co…` gives `ref` |
| Supabase.ProjectRefFromKey | packages/core/src/db/client.ts:16-25 | No second segment, or an empty one, gives `null`; an empty `ref` counts as `null` |
| Supabase.KeyOfJwt | packages/core/src/db/client.ts:16-25 | `header.payload.signature` gives the payload's ref |
| Supabase.Connect | packages/core/src/db/client.ts:35-69 | A client is created only from a URL and a key that are both set and that do not name two different projects |
| Supabase.ConnectOrder | packages/core/src/db/client.ts:38-56 | A missing URL is reported first, then a missing key; the mismatch error occurs exactly when both sides name projects that differ |
| Supabase.SameProjectConnects | packages/core/src/db/client.ts:47-58 | A URL and a JWT for the same project connect |
| Supabase.SupabaseHolder.constructor | packages/core/src/db/client.ts:3 | The cache starts empty |
| Supabase.SupabaseHolder.GetSupabase | packages/core/src/db/client.ts:30-70 | A cached client is returned whatever the environment says; otherwise the checks run and a client that passes them is cached; every cached client passed the checks |

## Left out

- I/O, HTTP, the database, Slack/Teams delivery and the language model are not modelled as such: the result or thrown error of each modelled call is an input, and the calls taken to succeed are listed below.
- StandupFlow.RunWith: the user lookup's arguments are not modelled: the Slack `user_id`/`team_id`, and the Teams `aadObjectId || from.id` and `tenantId || 'unknown'` fallbacks. `LookedUpUser` records only that the lookup was made.
- Sends that the model takes to succeed. In the source a failure of any of these inside the `try` would be answered by the error reply; the model cannot say so:
  - the Slack acknowledgement and the "working" text;
  - every early-return `respond` of the Slack command (not connected, no board, no tickets);
  - the final Slack confirmation `respond` after the direct message;
  - the Teams "working" text;
  - every early-return `sendActivity` card of the Teams command (not connected, no board, no tickets);
  - the error reply of each `catch` block.
- TeamsBot.GreetMembers: each help-card send is taken to succeed; in the source a failed send stops the loop and the error escapes `onMembersAdded`.
- TeamsSetup: the user lookup `getOrCreateTeamsUser`, `hasValidToken` and `getJiraConfig` are taken not to throw, and so are the connect card, the already-configured card, the "Please select a board." text and the "No Boards Found" card (whose failure the `catch` of the board list would answer with the error card), and that `catch`'s own error card. The board fetch, the selection-card send and the stored selection are the modelled outcomes; the handlers and the bot do not catch, so a failed store escapes.

  The two sends whose failure is modelled are the Slack direct message and the Teams report card (the `sent` input).
- `Promise.all` in `fetchTickets` is modelled as sequential. When several detail requests fail, the error reported is the first failure in list order, not the first to settle.
- `JSON.parse` (with the object spread of its result), base64 decoding, `new Date(...)` parsing, `buildJiraAuthUrl` and the random OAuth bytes are parameters. `buildJiraAuthUrl` is taken not to throw.
- JiraClient.FetchTickets: a non-numeric `daysBack` (a string, say), which would make the cutoff an invalid date, is not represented; `response.text()` on a failed response is taken not to throw.
- JiraClient.Cutoff: the cutoff is `now - daysBack` whole days of milliseconds, whereas the source uses `setDate` on local time (daylight-saving days are 23 or 25 hours). The JQL date string and the contents of the request headers are not modelled.
- DueDates.FormatRelativeDueDate: dates are integer local day numbers. Weekday names and two-digit month/day come from tables, not from `toLocaleDateString`. Dates outside 1..12 and 1..31 are not represented.
- TeamsBot.NormaliseText: `toLowerCase` and `trim` are modelled for ASCII letters and ASCII/Unicode white space only; no Unicode case mapping.
- Dashboard.NumberOf: decimals, exponents, hexadecimal and `Infinity` are read as NaN, a narrower notion than JavaScript's `Number`.
- WebGenerate.GroupByStatus: the message of the `TypeError` (`PushFailure`) is the one Node.js (V8) gives; other engines word it differently.
- WebGenerate.StatusOrder: JavaScript places integer-like keys first in ascending order; the model uses first-appearance order for every key.
- WebBoards: the board element type is generic; the token lookup is a boolean "tokens found".
- Supabase.Connect: `createClient` is represented by the URL/key pair it receives; its options are not modelled.
- The help card, the no-tickets card and the card texts, styles and layout outside the facts, choices and actions are not modelled.
- The dashboard's React state, its fetching of projects and boards, the logout and disconnect buttons, and the clipboard write itself are not modelled. The two clipboard transforms are `Markdown.AsHtml` and `Markdown.AsPlainText`.
- Logging (`console.log`/`console.error`) is not modelled.
- The prompt files, user/report stores and auth routes are not part of this model.
- Behaviour a reader might not expect, where the model follows the code (packages/core/src/claude/generate.ts:61 says the JSON block is removed from the report; the Slack and Teams handlers save the new names, the web route does not):
  - the stripped report can still contain "```json": an unclosed block is kept, and cutting a block can splice a new one (`Generate.StripCanLeaveBlock`);
  - the Slack and plain-text link rewrites are not idempotent;
  - the web route does not save the new ticket names, and its 500 fallback text is "Failed to generate report".

## Findings

| source | as written | input that shows it | evidently intended | confidence | as-written member | corrected member |
|---|---|---|---|---|---|---|
| packages/core/src/claude/generate.ts:118-120 | `Math.ceil` of the midnight-to-midnight interval in days | A due date of tomorrow, on the day clocks fall back: the interval is 25 h, which `ceil` makes 2 days, so the label is "Due <weekday>" | The calendar day difference (round, or compare dates), giving "Due tomorrow" | not executed | DueDates.FallBackSkipsTomorrow | DueDates.RoundedDiffIsDayDifference |
| packages/core/src/claude/generate.ts:113-116 | `new Date("YYYY-MM-DD")` reads a date-only string as UTC midnight, then `setHours` moves it to local midnight | Today's date as Jira's `duedate` in a runtime whose local zone is west of UTC (offset < 0): it falls on yesterday's local day, so the label is "Overdue" | The local day written in the string, giving "Due today" | not executed | DueDates.DateOnlyWestOfUtc | DueDates.WrittenDayLabels |

/**
 * The Adaptive Cards the Teams bot sends, reduced to what identifies a card and what a
 * submit button sends back: the title, the facts, the board choice set, the texts of
 * error and report cards, and the actions. The instructions printed under a title and
 * the styling (weight, size, colour, spacing, wrapping) are not modelled; the help and
 * no-tickets cards are static and appear only by name.
 */
module TeamsCards {
  import opened Wrappers
  import opened Text
  import Markdown

  /** One fact of a `FactSet`; `None` stands for an `undefined` value. */
  datatype Fact = Fact(title: string, value: Option<string>)

  datatype Choice = Choice(title: string, value: string)

  datatype Element =
    | TextBlock(text: string)
    | FactSet(facts: seq<Fact>)
    | ChoiceSet(id: string, choices: seq<Choice>)

  /** `Action.Submit` carries `data.action`; `Action.OpenUrl` a link. */
  datatype Action = Submit(title: string, action: string) | OpenUrl(title: string, url: string)

  datatype Card =
    | AdaptiveCard(body: seq<Element>, actions: seq<Action>)
    | HelpCard
    | NoTicketsCard

  /** A Jira project as the board list returns it (the Teams flow calls projects boards). */
  datatype Project = Project(id: string, name: string, key: string)

  // ---------------------------------------------------------------------
  // setup cards

  function ConnectJiraCard(authUrl: string): Card {
    AdaptiveCard(
      [TextBlock("Connect Jira Account")],
      [OpenUrl("Connect Jira Account", authUrl)])
  }

  /** The title a project is listed under: `name (key)`. */
  function ChoiceTitle(p: Project): string {
    p.name + " (" + p.key + ")"
  }

  /** The value a choice submits: `id:key:name`. */
  function EncodeSelection(p: Project): (v: string)
    ensures v == p.id + [':'] + p.key + [':'] + p.name
  {
    p.id + ":" + p.key + ":" + p.name
  }

  /** `boards.map(...)`: one choice per project, in the order of the list. */
  function Choices(projects: seq<Project>): (cs: seq<Choice>)
    ensures |cs| == |projects|
    ensures forall i :: 0 <= i < |projects| ==>
              cs[i] == Choice(ChoiceTitle(projects[i]), EncodeSelection(projects[i]))
  {
    if projects == [] then []
    else [Choice(ChoiceTitle(projects[0]), EncodeSelection(projects[0]))] + Choices(projects[1..])
  }

  function BoardSelectionCard(projects: seq<Project>): Card {
    AdaptiveCard(
      [TextBlock("Select Your Board"), ChoiceSet("boardSelection", Choices(projects))],
      [Submit("Select Board", "selectBoard")])
  }

  /** The choices offered by a card, and the actions its buttons submit. */
  function OfferedChoices(card: Card): seq<Choice> {
    if card.AdaptiveCard? && |card.body| == 2 && card.body[1].ChoiceSet? then card.body[1].choices else []
  }

  function SubmittedActions(card: Card): (r: seq<string>)
    ensures card.AdaptiveCard? ==> |r| <= |card.actions|
  {
    if card.AdaptiveCard? then SubmitsOf(card.actions) else []
  }

  function SubmitsOf(actions: seq<Action>): (r: seq<string>)
    ensures |r| <= |actions|
  {
    if actions == [] then []
    else (if actions[0].Submit? then [actions[0].action] else []) + SubmitsOf(actions[1..])
  }

  /** The fact set of a card, if its second element is one. */
  function FactsOf(card: Card): seq<Fact> {
    if card.AdaptiveCard? && |card.body| >= 2 && card.body[1].FactSet? then card.body[1].facts else []
  }

  /** The selection card offers exactly one choice per project, in order, each titled
      `name (key)` and carrying `id:key:name`, and its one button submits `selectBoard`. */
  lemma BoardSelectionOffersEachProject(projects: seq<Project>)
    ensures var cs := OfferedChoices(BoardSelectionCard(projects));
            && |cs| == |projects|
            && forall i :: 0 <= i < |projects| ==>
                 cs[i].title == projects[i].name + " (" + projects[i].key + ")"
                 && cs[i].value == projects[i].id + ":" + projects[i].key + ":" + projects[i].name
    ensures SubmittedActions(BoardSelectionCard(projects)) == ["selectBoard"]
  {
    var a := [Submit("Select Board", "selectBoard")];
    assert SubmitsOf(a) == ["selectBoard"] + SubmitsOf(a[1..]);
  }

  function SetupCompleteCard(boardName: string, projectKey: Option<string>): Card {
    AdaptiveCard(
      [TextBlock("You're All Set!"), FactSet([Fact("Board", Some(boardName)), Fact("Project", projectKey)])],
      [Submit("Generate Standup Now", "standup")])
  }

  /** The already-configured card: an empty or missing board name or project key is
      shown as `Unknown`. */
  function AlreadyConfiguredCard(boardName: Option<string>, projectKey: Option<string>): Card {
    AdaptiveCard(
      [ TextBlock("Already Set Up"),
        FactSet([Fact("Board", Some(OrElse(boardName, "Unknown"))),
                 Fact("Project", Some(OrElse(projectKey, "Unknown")))]) ],
      [Submit("Change Board", "changeBoard"), Submit("Generate Standup", "standup")])
  }

  /** The already-configured card never shows an empty or missing value: each fact is
      the stored value when there is one, `Unknown` otherwise; its buttons submit
      `changeBoard` and `standup`. */
  lemma AlreadyConfiguredShowsValues(boardName: Option<string>, projectKey: Option<string>)
    ensures var facts := FactsOf(AlreadyConfiguredCard(boardName, projectKey));
            && |facts| == 2 && facts[0].title == "Board" && facts[1].title == "Project"
            && (forall i :: 0 <= i < 2 ==> facts[i].value.Some? && facts[i].value.value != [])
            && facts[0].value.value == (if boardName.Some? && boardName.value != [] then boardName.value else "Unknown")
            && facts[1].value.value == (if projectKey.Some? && projectKey.value != [] then projectKey.value else "Unknown")
    ensures SubmittedActions(AlreadyConfiguredCard(boardName, projectKey)) == ["changeBoard", "standup"]
  {
    var a := [Submit("Change Board", "changeBoard"), Submit("Generate Standup", "standup")];
    assert SubmitsOf(a[1..]) == ["standup"] + SubmitsOf(a[2..]);
  }

  // ---------------------------------------------------------------------
  // report and error cards

  /** `createReportCard`: the title, then the report formatted for Teams. */
  function ReportCard(report: string): Card {
    AdaptiveCard([TextBlock("Weekly Standup Report"), TextBlock(Markdown.ForTeams(report))], [])
  }

  /** The report card has exactly two text blocks, the title and then the report; a
      `## X` or `### X` line of the report shows as `**X**`, any other line unchanged. */
  lemma ReportCardText(report: string, heading: string, line: string)
    requires NoLineTerminator(heading) && heading != [] && NoLineTerminator(line)
    ensures var c := ReportCard(report);
            && |c.body| == 2 && c.body[0] == TextBlock("Weekly Standup Report")
            && c.body[1].TextBlock? && c.actions == []
    ensures ReportCard("## " + heading).body[1].text == "**" + heading + "**"
    ensures ReportCard("### " + heading).body[1].text == "**" + heading + "**"
    ensures !StartsWith(line, "## ") && !StartsWith(line, "### ") ==> ReportCard(line).body[1].text == line
  {
    Markdown.TeamsLineRules(heading, line);
  }

  /** `createErrorCard(title, message)`: two text blocks and no action. */
  function ErrorCard(title: string, message: string): Card {
    AdaptiveCard([TextBlock(title), TextBlock(message)], [])
  }

  function JiraNotConnectedCard(): Card {
    ErrorCard("Jira Not Connected", "Please run the \"setup\" command first to connect your Jira account.")
  }

  function NoBoardSelectedCard(): Card {
    ErrorCard("No Board Selected", "Please run the \"setup\" command to select your Jira board.")
  }
}

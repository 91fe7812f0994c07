/**
 * The deterministic part of the Jira client: the API base for a configured site,
 * flattening Atlassian Document Format to text, the choice of issues that get their
 * details fetched, the recent-comment filter, the defaults of the ticket fields, and
 * the assembly of `fetchTickets`' result.
 *
 * The HTTP replies are inputs. Reading a timestamp with `new Date(...)` is the
 * parameter `instant`: milliseconds since the epoch, or `None` for `Invalid Date`
 * (every comparison with it is false).
 */
module JiraClient {
  import opened Wrappers
  import opened Text

  // ---------------------------------------------------------------------
  // configuration

  /** The stored Jira configuration of a user: the site, and the board and project chosen
      at setup (`None` for a null column). */
  datatype JiraConfig = JiraConfig(cloudId: string, baseUrl: Option<string>, boardId: Option<int>,
                                   boardName: Option<string>, projectKey: Option<string>)

  const ApiRoot: string := "https://api.atlassian.com/ex/jira/"
  const NotConfigured: string := "Jira not configured for user"

  /** `getJiraApiUrl`: no stored config throws; otherwise the Atlassian API root followed
      by the site's cloud id. */
  function ApiUrl(config: Option<JiraConfig>): (r: Result<string>)
    ensures r.Failure? <==> config.None?
    ensures r.Failure? ==> r.error == NotConfigured
    ensures r.Success? ==> StartsWith(r.value, ApiRoot) && r.value[|ApiRoot|..] == config.value.cloudId
  {
    match config
    case None => Failure(NotConfigured)
    case Some(c) => Success(ApiRoot + c.cloudId)
  }

  /** A board of the Jira Agile API: `JiraAgileBoard`. */
  datatype AgileBoard = AgileBoard(id: int, name: string)

  // ---------------------------------------------------------------------
  // Atlassian Document Format

  /** An ADF value as the code inspects it: a falsy value, a string, or an object with
      an optional `type`, an optional string `text` and the elements of its `content`
      array. A missing or non-array `content` flattens to `''` exactly as an empty array
      does, so both are the empty sequence here. */
  datatype Adf =
    | Falsy
    | Str(s: string)
    | Node(kind: Option<string>, text: Option<string>, content: seq<Adf>)

  /** `extractTextFromAdf`. */
  function ExtractText(adf: Adf): string
  {
    match adf
    case Falsy => ""
    case Str(s) => s
    case Node(kind, text, content) =>
      if kind == Some("text") then OrElse(text, "") else ExtractAll(content)
  }

  /** `content.map(extractTextFromAdf).join('')`. */
  function ExtractAll(children: seq<Adf>): string
  {
    if children == [] then "" else ExtractText(children[0]) + ExtractAll(children[1..])
  }

  /** The flattening of a list of children is the concatenation of their flattenings. */
  lemma {:induction false} ExtractAllAppend(a: seq<Adf>, b: seq<Adf>)
    ensures ExtractAll(a + b) == ExtractAll(a) + ExtractAll(b)
    decreases a
  {
    if a == [] {
      assert a + b == b;
    } else {
      assert (a + b)[0] == a[0];
      assert (a + b)[1..] == a[1..] + b;
      ExtractAllAppend(a[1..], b);
    }
  }

  /** The cases of `extractTextFromAdf`: nothing from a falsy value, a string as it is,
      a `text` node's `text` (or nothing) whatever its `content`, a container's children
      in order, and nothing from any other value. */
  lemma ExtractTextCases(adf: Adf)
    ensures adf.Falsy? ==> ExtractText(adf) == ""
    ensures adf.Str? ==> ExtractText(adf) == adf.s
    ensures adf.Node? && adf.kind == Some("text") ==> ExtractText(adf) == OrElse(adf.text, "")
    ensures adf.Node? && adf.kind != Some("text") ==> ExtractText(adf) == ExtractAll(adf.content)
    ensures adf.Node? && adf.kind != Some("text") && adf.content == [] ==> ExtractText(adf) == ""
  {
  }

  /** A paragraph of text nodes reads as the texts one after another. */
  lemma ParagraphOfTexts(a: string, b: string)
    ensures ExtractText(Node(Some("paragraph"), None,
                             [Node(Some("text"), Some(a), []), Node(Some("text"), Some(b), [])]))
         == a + b
  {
    var x := Node(Some("text"), Some(a), []);
    var y := Node(Some("text"), Some(b), []);
    ExtractAllAppend([x], [y]);
    assert [x] + [y] == [x, y];
    assert ExtractAll([x]) == OrElse(Some(a), "") + ExtractAll([]);
    assert ExtractAll([y]) == OrElse(Some(b), "") + ExtractAll([]);
  }

  /** Wrapping nodes in a container node that is not a text node adds nothing. */
  lemma ContainerAddsNothing(kind: Option<string>, text: Option<string>, children: seq<Adf>, more: seq<Adf>)
    requires kind != Some("text")
    ensures ExtractText(Node(kind, text, children + more))
         == ExtractText(Node(kind, text, children)) + ExtractAll(more)
  {
    ExtractAllAppend(children, more);
  }

  // ---------------------------------------------------------------------
  // phase 2: which issues get their details fetched

  /** An issue of the search reply: its key, `fields.status?.name` and `fields.updated`. */
  datatype SearchIssue = SearchIssue(key: string, status: Option<string>, updated: string)

  predicate IsActive(status: Option<string>) {
    status == Some("In Progress") || status == Some("To Do")
  }

  /** `new Date(t) >= cutoffDate`. */
  predicate AtOrAfter(t: string, cutoff: int, instant: string -> Option<int>) {
    instant(t).Some? && instant(t).value >= cutoff
  }

  /** The phase-2 test: updated since the cutoff, or in progress, or to do. */
  predicate NeedsDetails(issue: SearchIssue, cutoff: int, instant: string -> Option<int>) {
    AtOrAfter(issue.updated, cutoff, instant) || IsActive(issue.status)
  }

  function NeedingDetails(issues: seq<SearchIssue>, cutoff: int, instant: string -> Option<int>): (r: seq<SearchIssue>)
    ensures |r| <= |issues|
    ensures forall x :: x in r <==> x in issues && NeedsDetails(x, cutoff, instant)
  {
    if issues == [] then []
    else
      var rest := NeedingDetails(issues[1..], cutoff, instant);
      assert forall x :: x in issues <==> x == issues[0] || x in issues[1..];
      if NeedsDetails(issues[0], cutoff, instant) then [issues[0]] + rest else rest
  }

  /** The filter works element by element, so it keeps the order of the issues. */
  lemma {:induction false} NeedingDetailsAppend(a: seq<SearchIssue>, b: seq<SearchIssue>, cutoff: int,
                                                instant: string -> Option<int>)
    ensures NeedingDetails(a + b, cutoff, instant)
         == NeedingDetails(a, cutoff, instant) + NeedingDetails(b, cutoff, instant)
    decreases a
  {
    if a == [] {
      assert a + b == b;
    } else {
      assert (a + b)[0] == a[0];
      assert (a + b)[1..] == a[1..] + b;
      NeedingDetailsAppend(a[1..], b, cutoff, instant);
    }
  }

  /** Issues that all pass are kept as they are; in particular the filter is idempotent. */
  lemma {:induction false} NeedingDetailsKeepsPassing(issues: seq<SearchIssue>, cutoff: int,
                                                      instant: string -> Option<int>)
    requires forall i :: 0 <= i < |issues| ==> NeedsDetails(issues[i], cutoff, instant)
    ensures NeedingDetails(issues, cutoff, instant) == issues
  {
    if issues != [] {
      NeedingDetailsKeepsPassing(issues[1..], cutoff, instant);
    }
  }

  lemma NeedingDetailsIdempotent(issues: seq<SearchIssue>, cutoff: int, instant: string -> Option<int>)
    ensures var once := NeedingDetails(issues, cutoff, instant);
            NeedingDetails(once, cutoff, instant) == once
  {
    var once := NeedingDetails(issues, cutoff, instant);
    forall i | 0 <= i < |once| ensures NeedsDetails(once[i], cutoff, instant) {
      assert once[i] in once;
    }
    NeedingDetailsKeepsPassing(once, cutoff, instant);
  }

  // ---------------------------------------------------------------------
  // ticket details

  /** A comment as the issue reply holds it: `author?.displayName`, `body`, `created`. */
  datatype RawComment = RawComment(authorName: Option<string>, body: Adf, created: string)
  datatype Comment = Comment(author: string, body: string, created: string)

  /** The issue reply: `key`, the fields the code reads, `renderedFields?.description` and
      `fields.comment?.comments` (`None` for a missing list). */
  datatype RawDetail = RawDetail(
    key: string, summary: string, status: Option<string>, assignee: Option<string>,
    description: Option<string>, duedate: Option<string>, updated: string,
    comments: Option<seq<RawComment>>)

  datatype Ticket = Ticket(
    key: string, summary: string, status: string, assignee: Option<string>,
    description: Option<string>, dueDate: Option<string>, updated: string,
    comments: seq<Comment>)

  function ToComment(c: RawComment): (r: Comment)
    ensures r.author != []
    ensures r.author == "Unknown" <==> c.authorName.None? || c.authorName.value in {[], "Unknown"}
    ensures r.body == ExtractText(c.body) && r.created == c.created
  {
    Comment(OrElse(c.authorName, "Unknown"), ExtractText(c.body), c.created)
  }

  /** The comments created at or after the cutoff, in their order, each converted. */
  function RecentComments(raw: seq<RawComment>, cutoff: int, instant: string -> Option<int>): (r: seq<Comment>)
    ensures |r| <= |raw|
    ensures forall c :: c in r <==> exists x :: x in raw && AtOrAfter(x.created, cutoff, instant) && c == ToComment(x)
  {
    if raw == [] then []
    else
      var rest := RecentComments(raw[1..], cutoff, instant);
      assert forall x :: x in raw <==> x == raw[0] || x in raw[1..];
      if AtOrAfter(raw[0].created, cutoff, instant) then [ToComment(raw[0])] + rest else rest
  }

  lemma {:induction false} RecentCommentsAppend(a: seq<RawComment>, b: seq<RawComment>, cutoff: int,
                                                instant: string -> Option<int>)
    ensures RecentComments(a + b, cutoff, instant)
         == RecentComments(a, cutoff, instant) + RecentComments(b, cutoff, instant)
    decreases a
  {
    if a == [] {
      assert a + b == b;
    } else {
      assert (a + b)[0] == a[0];
      assert (a + b)[1..] == a[1..] + b;
      RecentCommentsAppend(a[1..], b, cutoff, instant);
    }
  }

  /** Every comment is dropped when none is that recent, whatever else it holds. */
  lemma {:induction false} NoRecentComments(raw: seq<RawComment>, cutoff: int, instant: string -> Option<int>)
    requires forall i :: 0 <= i < |raw| ==> !AtOrAfter(raw[i].created, cutoff, instant)
    ensures RecentComments(raw, cutoff, instant) == []
  {
    if raw != [] {
      NoRecentComments(raw[1..], cutoff, instant);
    }
  }

  /** The ticket built from the issue reply (`fetchTicketDetails`' return value). */
  function ToTicket(d: RawDetail, cutoff: int, instant: string -> Option<int>): (t: Ticket)
    ensures t.key == d.key && t.summary == d.summary && t.updated == d.updated
    ensures t.status != [] && (t.status == "Unknown" <==> d.status.None? || d.status.value in {[], "Unknown"})
    ensures t.assignee.Some? <==> d.assignee.Some? && d.assignee.value != []
    ensures t.description.Some? <==> d.description.Some? && d.description.value != []
    ensures t.dueDate.Some? <==> d.duedate.Some? && d.duedate.value != []
    ensures t.assignee.Some? ==> t.assignee == d.assignee
    ensures t.description.Some? ==> t.description == d.description
    ensures t.dueDate.Some? ==> t.dueDate == d.duedate
    ensures d.comments.None? ==> t.comments == []
    ensures d.comments.Some? ==> t.comments == RecentComments(d.comments.value, cutoff, instant)
  {
    Ticket(d.key, d.summary, OrElse(d.status, "Unknown"), OrNull(d.assignee), OrNull(d.description),
           OrNull(d.duedate), d.updated, RecentComments(d.comments.GetOr([]), cutoff, instant))
  }

  // ---------------------------------------------------------------------
  // fetchTickets

  /** A reply of the Jira API: the parsed body, the text of a failed response, or the
      message of an `Error` thrown before a body was read: by the token lookup of
      `getJiraHeaders` (no token, or one that cannot be refreshed), by `fetch` itself, or
      by `response.json()`. */
  datatype Reply<T> = Ok(body: T) | NotOk(text: string) | Raised(message: string)

  /** A number option or JSON field as destructuring sees it: missing (`undefined`),
      `null` (which is also what `JSON.stringify` makes of `NaN`), or a number. */
  datatype Field<+T> = Absent | Null | Value(v: T)

  /** `daysBack = 7` applies when the option is missing; `getDate() - null` subtracts
      nothing. */
  function DaysBack(daysBack: Field<int>): (n: int)
    ensures daysBack.Absent? ==> n == 7
    ensures daysBack.Null? ==> n == 0
    ensures daysBack.Value? ==> n == daysBack.v
  {
    match daysBack
    case Absent => 7
    case Null => 0
    case Value(n) => n
  }

  const MsPerDay: int := 86400000

  /** `cutoffDate`: `daysBack` days before `now`. */
  function Cutoff(now: int, daysBack: Field<int>): (c: int)
    ensures daysBack.Absent? ==> c == now - 7 * MsPerDay
    ensures daysBack.Null? ==> c == now
    ensures daysBack.Value? ==> now - c == daysBack.v * MsPerDay
  {
    now - DaysBack(daysBack) * MsPerDay
  }

  /** What a failed detail request throws: the response text after the issue key, or
      the thrown message itself. */
  function DetailError(key: string, reply: Reply<RawDetail>): string
    requires !reply.Ok?
  {
    match reply
    case NotOk(text) => "Failed to fetch ticket " + key + ": " + text
    case Raised(message) => message
  }

  /** Phase 3 in list order: the details of each chosen issue, or the first failure. */
  function FetchDetails(chosen: seq<SearchIssue>, details: string -> Reply<RawDetail>, cutoff: int,
                        instant: string -> Option<int>): (r: Result<seq<Ticket>>)
    ensures r.Success? <==> forall i :: 0 <= i < |chosen| ==> details(chosen[i].key).Ok?
    ensures r.Success? ==> |r.value| == |chosen|
    ensures r.Success? ==> forall i :: 0 <= i < |chosen| ==>
              r.value[i] == ToTicket(details(chosen[i].key).body, cutoff, instant)
    ensures r.Failure? ==>
              var i := FirstFailed(chosen, details);
              i < |chosen| && r.error == DetailError(chosen[i].key, details(chosen[i].key))
  {
    if chosen == [] then Success([])
    else
      match details(chosen[0].key)
      case NotOk(text) =>
        Failure("Failed to fetch ticket " + chosen[0].key + ": " + text)
      case Raised(message) =>
        Failure(message)
      case Ok(d) =>
        var rest := FetchDetails(chosen[1..], details, cutoff, instant);
        if rest.Failure? then Failure(rest.error)
        else Success([ToTicket(d, cutoff, instant)] + rest.value)
  }

  /** The position of the first chosen issue whose details cannot be fetched, or the
      number of chosen issues when every request succeeds. */
  function FirstFailed(chosen: seq<SearchIssue>, details: string -> Reply<RawDetail>): (i: nat)
    ensures i <= |chosen|
    ensures forall j :: 0 <= j < i ==> details(chosen[j].key).Ok?
    ensures i < |chosen| ==> !details(chosen[i].key).Ok?
  {
    if chosen == [] || !details(chosen[0].key).Ok? then 0
    else 1 + FirstFailed(chosen[1..], details)
  }

  /** `fetchTickets`: the API base (no config throws), the search (a failed response
      throws with its text, a thrown token lookup, `fetch` or JSON read passes its
      message on), the phase-2 filter over `data.issues || []`, then the details of
      every chosen issue. */
  function FetchTickets(config: Option<JiraConfig>, daysBack: Field<int>, now: int,
                        search: Reply<Option<seq<SearchIssue>>>, details: string -> Reply<RawDetail>,
                        instant: string -> Option<int>): (r: Result<seq<Ticket>>)
    ensures config.None? ==> r == Failure(NotConfigured)
    ensures config.Some? && search.NotOk? ==> r == Failure("Failed to fetch tickets: " + search.text)
    ensures config.Some? && search.Raised? ==> r == Failure(search.message)
    ensures config.Some? && search.Ok? ==>
              r == FetchDetails(NeedingDetails(search.body.GetOr([]), Cutoff(now, daysBack), instant),
                                details, Cutoff(now, daysBack), instant)
  {
    var _ :- ApiUrl(config);
    match search
    case NotOk(text) => Failure("Failed to fetch tickets: " + text)
    case Raised(message) => Failure(message)
    case Ok(issues) =>
      var cutoff := Cutoff(now, daysBack);
      FetchDetails(NeedingDetails(issues.GetOr([]), cutoff, instant), details, cutoff, instant)
  }

  /** With every detail reply successful, `fetchTickets` returns one ticket per chosen
      issue, in the order of the search reply. */
  lemma OneTicketPerChosenIssue(config: JiraConfig, daysBack: Field<int>, now: int,
                                issues: seq<SearchIssue>, details: string -> Reply<RawDetail>,
                                instant: string -> Option<int>)
    requires forall x :: x in issues ==> details(x.key).Ok?
    ensures var cutoff := Cutoff(now, daysBack);
            var chosen := NeedingDetails(issues, cutoff, instant);
            var r := FetchTickets(Some(config), daysBack, now, Ok(Some(issues)), details, instant);
            && r.Success? && |r.value| == |chosen|
            && forall i :: 0 <= i < |chosen| ==> r.value[i] == ToTicket(details(chosen[i].key).body, cutoff, instant)
  {
    var cutoff := Cutoff(now, daysBack);
    var chosen := NeedingDetails(issues, cutoff, instant);
    forall i | 0 <= i < |chosen| ensures details(chosen[i].key).Ok? {
      assert chosen[i] in chosen;
    }
  }

  /** A missing issue list is an empty one: nothing is fetched and no ticket comes back. */
  lemma MissingIssuesIsEmpty(config: JiraConfig, daysBack: Field<int>, now: int,
                             details: string -> Reply<RawDetail>, instant: string -> Option<int>)
    ensures FetchTickets(Some(config), daysBack, now, Ok(None), details, instant) == Success([])
  {
  }
}

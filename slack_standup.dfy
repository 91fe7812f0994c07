/**
 * The Slack `/weekly-standup` command: acknowledge, say that the report is being
 * generated, run the shared standup steps, then either answer with the reason the run
 * stopped or send the report as a direct message and confirm.
 *
 * The handler's observable behaviour is its trace: the ephemeral answers it gives
 * (`respond`), the direct message it sends, and, between them, the calls of the shared
 * run. The acknowledgement and the answers are taken to succeed; the direct message may
 * throw, and is an input.
 */
module SlackStandup {
  import opened Wrappers
  import opened Text
  import opened Calls
  import opened JiraClient
  import opened Generate
  import opened StandupFlow
  import Markdown

  datatype Effect =
    | Ack
    | Respond(text: string)
    | Called(step: Step)
    | DirectMessage(slackUserId: string, text: string)

  const Cross: char := '\U{274C}'
  const CheckMark: char := '\U{2705}'

  const WorkingText: string := "\U{23F3} Generating your weekly standup report..."
  const NotConnectedText: string := [Cross] + " Jira not connected. Run `/standup-setup` first to connect your account."
  const NoBoardText: string := [Cross] + " No board selected. Run `/standup-setup` to select your Jira board."
  const NoTicketsText: string := "\U{1F4ED} No tickets found with recent activity. Nothing to report!"
  const SentText: string := [CheckMark] + " Your weekly standup has been sent to your DMs!"

  /** The answer given when anything in the `try` block throws. */
  function ErrorText(e: Thrown): string {
    [Cross] + " Error generating standup: " + MessageOr(e, "Unknown error")
    + "\n\nTry again or contact support if this persists."
  }

  /** The effect recording one call. */
  const Call: Step -> Effect := s => Called(s)

  /** What the handler does once the run has stopped. */
  function Finish(slackUserId: string, stop: Stop, sent: Outcome<()>): seq<Effect> {
    match stop
    case NotConnected => [Respond(NotConnectedText)]
    case NoBoard => [Respond(NoBoardText)]
    case NoTickets => [Respond(NoTicketsText)]
    case Failed(e) => [Respond(ErrorText(e))]
    case Generated(report) =>
      var dm := DirectMessage(slackUserId, Markdown.ForSlack(report));
      match sent
      case Done(_) => [dm, Respond(SentText)]
      case Threw(e) => [dm, Respond(ErrorText(e))]
  }

  /** The whole command for the Slack user `slackUserId`; `sent` is the outcome of the
      direct message. */
  function HandleStandup(slackUserId: string, calls: StandupCalls, sent: Outcome<()>,
                         parse: string -> Option<Names>): (trace: seq<Effect>)
    ensures |trace| >= 4 && trace[0] == Ack && trace[1] == Respond(WorkingText)
    ensures trace[|trace| - 1].Respond?
    ensures forall i :: 0 < i < |trace| ==> trace[i] != Ack
  {
    Trace(slackUserId, RunStandup(calls, parse), sent)
  }

  /** The command's trace around a run of the shared steps. */
  function Trace(slackUserId: string, run: Run, sent: Outcome<()>): (trace: seq<Effect>)
    ensures |trace| >= 3 + |run.steps| && trace[0] == Ack && trace[1] == Respond(WorkingText)
    ensures trace[|trace| - 1].Respond?
    ensures forall i :: 0 < i < |trace| ==> trace[i] != Ack
  {
    FinishShape(slackUserId, run.stop, sent);
    [Ack, Respond(WorkingText)] + CallEffects(run.steps, Call) + Finish(slackUserId, run.stop, sent)
  }

  /** `Finish` ends with an answer, and holds no acknowledgement and no call; its only
      direct message is the formatted report, followed by one more answer. */
  lemma FinishShape(slackUserId: string, stop: Stop, sent: Outcome<()>)
    ensures var fin := Finish(slackUserId, stop, sent);
            && 1 <= |fin| <= 2 && fin[|fin| - 1].Respond?
            && (forall k :: 0 <= k < |fin| ==> fin[k] != Ack && !fin[k].Called?)
            && (forall k :: 0 <= k < |fin| && fin[k].DirectMessage? ==>
                  stop.Generated? && k == 0 && |fin| == 2
                  && fin[k] == DirectMessage(slackUserId, Markdown.ForSlack(stop.report)))
  {
  }

  // ---------------------------------------------------------------------
  // properties of the command

  /** For any run of the shared steps (the command's trace is `Trace` of `RunStandup`),
      the last answer names the reason the run stopped: each early return has its own
      text, a thrown value (from the run or from the direct message) its message, and
      the confirmation comes exactly when every call and the direct message succeeded. */
  lemma FinalAnswer(slackUserId: string, run: Run, sent: Outcome<()>)
    ensures var trace := Trace(slackUserId, run, sent);
            var stop := run.stop;
            var last := trace[|trace| - 1];
            && (stop == NotConnected ==> last == Respond(NotConnectedText))
            && (stop == NoBoard ==> last == Respond(NoBoardText))
            && (stop == NoTickets ==> last == Respond(NoTicketsText))
            && (stop.Failed? ==> last == Respond(ErrorText(stop.thrown)))
            && (stop.Generated? && sent.Threw? ==> last == Respond(ErrorText(sent.thrown)))
            && (last == Respond(SentText) <==> stop.Generated? && sent.Done?)
  {
    var trace := Trace(slackUserId, run, sent);
    var head := [Ack, Respond(WorkingText)] + CallEffects(run.steps, Call);
    var fin := Finish(slackUserId, run.stop, sent);
    assert trace == head + fin;
    assert trace[|trace| - 1] == fin[|fin| - 1];
    FinishLast(slackUserId, run.stop, sent);
  }

  /** The last effect of `Finish`, for each way a run can stop. */
  lemma FinishLast(slackUserId: string, stop: Stop, sent: Outcome<()>)
    ensures var fin := Finish(slackUserId, stop, sent);
            var last := fin[|fin| - 1];
            && (stop == NotConnected ==> last == Respond(NotConnectedText))
            && (stop == NoBoard ==> last == Respond(NoBoardText))
            && (stop == NoTickets ==> last == Respond(NoTicketsText))
            && (stop.Failed? ==> last == Respond(ErrorText(stop.thrown)))
            && (stop.Generated? && sent.Threw? ==> last == Respond(ErrorText(sent.thrown)))
            && (last == Respond(SentText) <==> stop.Generated? && sent.Done?)
  {
    ErrorTextIsNotSent();
  }

  /** No error answer reads like the confirmation: every error answer starts with the
      cross mark, the confirmation with the check mark. */
  lemma ErrorTextIsNotSent()
    ensures forall e :: ErrorText(e) != SentText
    ensures NotConnectedText != SentText && NoBoardText != SentText && NoTicketsText != SentText
  {
    forall e ensures ErrorText(e) != SentText {
      assert ErrorText(e)[0] == Cross;
    }
  }

  /** The report goes to the user who ran the command, as a direct message, only after
      the extracted names were saved; it is the model's text with its blocks cut out,
      trimmed and formatted for Slack. At most one direct message is sent. */
  lemma DirectMessageAfterSave(slackUserId: string, calls: StandupCalls, sent: Outcome<()>,
                               parse: string -> Option<Names>, i: nat)
    requires var trace := HandleStandup(slackUserId, calls, sent, parse);
             i < |trace| && trace[i].DirectMessage?
    ensures var trace := HandleStandup(slackUserId, calls, sent, parse);
            && calls.user.Done? && calls.answer.Done? && calls.answer.value != [] && calls.existingNames.Done?
            && i == |trace| - 2 && i >= 1
            && var text := ResponseText(calls.answer.value).value;
               && trace[i] == DirectMessage(slackUserId, Markdown.ForSlack(Trim(StripJsonBlocks(text))))
               && trace[i - 1]
                  == Called(SavedNames(calls.user.value, ExtractTicketNames(text, calls.existingNames.value, parse)))
  {
    var run := RunStandup(calls, parse);
    DirectMessageLast(slackUserId, run, sent, i);
    GeneratedReport(calls, parse);
  }

  /** Only a generated report is sent, as the second-to-last effect, right after the
      last call of the run. */
  lemma DirectMessageLast(slackUserId: string, run: Run, sent: Outcome<()>, i: nat)
    requires |run.steps| >= 1
    requires var trace := Trace(slackUserId, run, sent); i < |trace| && trace[i].DirectMessage?
    ensures var trace := Trace(slackUserId, run, sent);
            && run.stop.Generated? && i == |trace| - 2 && i >= 1
            && trace[i] == DirectMessage(slackUserId, Markdown.ForSlack(run.stop.report))
            && trace[i - 1] == Called(run.steps[|run.steps| - 1])
  {
    var head := [Ack, Respond(WorkingText)] + CallEffects(run.steps, Call);
    var fin := Finish(slackUserId, run.stop, sent);
    assert Trace(slackUserId, run, sent) == head + fin;
    FinishShape(slackUserId, run.stop, sent);
    MessageAfterCalls(run.steps, fin, i);
  }

  /** A direct message after the calls of a run is one of the final effects, and the last
      call comes right before the first of those. */
  lemma MessageAfterCalls(steps: seq<Step>, fin: seq<Effect>, i: nat)
    requires |steps| >= 1
    requires var trace := [Ack, Respond(WorkingText)] + CallEffects(steps, Call) + fin;
             i < |trace| && trace[i].DirectMessage?
    ensures var head := [Ack, Respond(WorkingText)] + CallEffects(steps, Call);
            var trace := head + fin;
            && |head| <= i && trace[i] == fin[i - |head|]
            && (i == |head| ==> trace[i - 1] == Called(steps[|steps| - 1]))
  {
    var head := [Ack, Respond(WorkingText)] + CallEffects(steps, Call);
    var trace := head + fin;
    if i < |head| {
      assert false;
    }
    if i == |head| {
      assert trace[i - 1] == head[|head| - 1];
    }
  }

  /** When every call succeeds, the command is: acknowledge, say it is working, the seven
      calls, the direct message, the confirmation. */
  lemma HappyTrace(slackUserId: string, userId: string, config: JiraConfig, tickets: seq<Ticket>,
                   existing: Names, content: seq<ContentBlock>, parse: string -> Option<Names>)
    requires Configured(Some(config)) && tickets != [] && content != []
    ensures var calls := StandupCalls(Done(userId), Done(true), Done(Some(config)), Done(tickets),
                                      Done(existing), Done(content), Done(()));
            var out := GenerateStandupReport(content, existing, parse).value;
            HandleStandup(slackUserId, calls, Done(()), parse)
            == [Ack, Respond(WorkingText),
                Called(LookedUpUser), Called(CheckedToken(userId)), Called(ReadConfig(userId)),
                Called(FetchedTickets(userId, config.projectKey.value)), Called(ReadNames(userId)),
                Called(AskedModel(tickets, config.baseUrl, existing)),
                Called(SavedNames(userId, out.newTicketNames)),
                DirectMessage(slackUserId, Markdown.ForSlack(out.report)), Respond(SentText)]
  {
    var calls := StandupCalls(Done(userId), Done(true), Done(Some(config)), Done(tickets),
                              Done(existing), Done(content), Done(()));
    var out := GenerateStandupReport(content, existing, parse).value;
    HappyRun(userId, config, tickets, existing, content, parse);
    var steps := [LookedUpUser, CheckedToken(userId), ReadConfig(userId),
                  FetchedTickets(userId, config.projectKey.value), ReadNames(userId),
                  AskedModel(tickets, config.baseUrl, existing), SavedNames(userId, out.newTicketNames)];
    assert RunStandup(calls, parse) == Run(steps, Generated(out.report));
    HappyTraceOfSteps(slackUserId, steps, out.report);
  }

  lemma HappyTraceOfSteps(slackUserId: string, steps: seq<Step>, report: string)
    requires |steps| == 7
    ensures Trace(slackUserId, Run(steps, Generated(report)), Done(()))
         == [Ack, Respond(WorkingText), Called(steps[0]), Called(steps[1]), Called(steps[2]), Called(steps[3]),
             Called(steps[4]), Called(steps[5]), Called(steps[6]),
             DirectMessage(slackUserId, Markdown.ForSlack(report)), Respond(SentText)]
  {
    var calls := CallEffects(steps, Call);
    assert calls == [Called(steps[0]), Called(steps[1]), Called(steps[2]), Called(steps[3]),
                     Called(steps[4]), Called(steps[5]), Called(steps[6])];
    assert Finish(slackUserId, Generated(report), Done(()))
        == [DirectMessage(slackUserId, Markdown.ForSlack(report)), Respond(SentText)];
  }

  /** A user whose Jira token is missing or expired is told to run setup, after two calls. */
  lemma NotConnectedTrace(slackUserId: string, userId: string, calls: StandupCalls,
                          sent: Outcome<()>, parse: string -> Option<Names>)
    requires calls.user == Done(userId) && calls.hasJira == Done(false)
    ensures HandleStandup(slackUserId, calls, sent, parse)
         == [Ack, Respond(WorkingText), Called(LookedUpUser), Called(CheckedToken(userId)),
             Respond(NotConnectedText)]
  {
    ThrowStops(calls, parse);
    EarlyReturns(calls, parse);
    assert RunStandup(calls, parse).steps == [LookedUpUser, CheckedToken(userId)];
  }
}

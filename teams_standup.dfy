/**
 * The Teams `standup` command: say that the report is being generated, run the shared
 * standup steps, then send the card for the reason the run stopped, or the report card.
 *
 * The command's observable behaviour is its trace: what it sends and, between the
 * first message and the last card, the calls of the shared run. The messages and
 * cards sent before the report are taken to arrive; sending the report card may throw,
 * and its outcome is an input.
 *
 * The user is looked up by `from.aadObjectId`, or `from.id` when that is empty, in the
 * tenant `conversation.tenantId`, or `'unknown'` when that is empty. These identifiers
 * are not modelled: the step `LookedUpUser` records only that the lookup was made.
 */
module TeamsStandup {
  import opened Wrappers
  import opened Text
  import opened Calls
  import opened JiraClient
  import opened Generate
  import opened StandupFlow
  import opened TeamsCards

  datatype Effect =
    | SentText(text: string)
    | SentCard(card: Card)
    | Called(step: Step)

  const WorkingText: string := "Generating your weekly standup report..."
  const RetryHint: string := "\n\nTry again or contact support if this persists."

  /** The card sent when anything in the `try` block throws. */
  function FailureCard(e: Thrown): Card {
    ErrorCard("Error Generating Standup", MessageOr(e, "Unknown error") + RetryHint)
  }

  /** The effect recording one call. */
  const Call: Step -> Effect := s => Called(s)

  /** The card sent once the run has stopped; `sent` is the outcome of sending the report
      card, whose failure is caught like any other. */
  function Finish(stop: Stop, sent: Outcome<()>): seq<Effect> {
    match stop
    case NotConnected => [SentCard(JiraNotConnectedCard())]
    case NoBoard => [SentCard(NoBoardSelectedCard())]
    case NoTickets => [SentCard(NoTicketsCard)]
    case Failed(e) => [SentCard(FailureCard(e))]
    case Generated(report) =>
      match sent
      case Done(_) => [SentCard(ReportCard(report))]
      case Threw(e) => [SentCard(ReportCard(report)), SentCard(FailureCard(e))]
  }

  /** The command's trace around a run of the shared steps. */
  function Trace(run: Run, sent: Outcome<()>): (trace: seq<Effect>)
    ensures |trace| >= 2 + |run.steps| && trace[0] == SentText(WorkingText)
    ensures trace[|trace| - 1].SentCard?
  {
    FinishShape(run.stop, sent);
    [SentText(WorkingText)] + CallEffects(run.steps, Call) + Finish(run.stop, sent)
  }

  /** The report card: an adaptive card whose first element is the report's title. */
  predicate IsReportCard(c: Card) {
    c.AdaptiveCard? && c.body != [] && c.body[0] == TextBlock("Weekly Standup Report")
  }

  /** `Finish` sends one or two cards; the report card only for a generated report, and
      then first. */
  lemma FinishShape(stop: Stop, sent: Outcome<()>)
    ensures var fin := Finish(stop, sent);
            && 1 <= |fin| <= 2
            && (forall k :: 0 <= k < |fin| ==> fin[k].SentCard?)
            && (forall k :: 0 <= k < |fin| && IsReportCard(fin[k].card) ==>
                  stop.Generated? && k == 0 && fin[k] == SentCard(ReportCard(stop.report)))
  {
    OnlyReportCardIsReport();
  }

  /** Of the cards the command sends, only the report card has the report's title. */
  lemma OnlyReportCardIsReport()
    ensures !IsReportCard(JiraNotConnectedCard()) && !IsReportCard(NoBoardSelectedCard())
    ensures !IsReportCard(NoTicketsCard)
    ensures forall e :: !IsReportCard(FailureCard(e))
  {
    assert JiraNotConnectedCard().body[0].text[0] == 'J';
    assert NoBoardSelectedCard().body[0].text[0] == 'N';
    forall e ensures !IsReportCard(FailureCard(e)) {
      assert FailureCard(e).body[0].text[0] == 'E';
    }
  }

  /** `handleStandupCommand`. */
  function HandleStandupCommand(calls: StandupCalls, sent: Outcome<()>,
                                parse: string -> Option<Names>): (trace: seq<Effect>)
    ensures |trace| >= 3 && trace[0] == SentText(WorkingText) && trace[1] == Called(LookedUpUser)
    ensures trace[|trace| - 1].SentCard?
  {
    Trace(RunStandup(calls, parse), sent)
  }

  // ---------------------------------------------------------------------
  // properties of the command

  /** For any run of the shared steps (the command's trace is `Trace` of `RunStandup`),
      the last card names the reason the run stopped: each early return has its own
      card, a thrown value its message followed by the retry hint, and the report card
      is last exactly when every call and the send succeeded. */
  lemma FinalCard(run: Run, sent: Outcome<()>)
    ensures var trace := Trace(run, sent);
            var stop := run.stop;
            && trace[|trace| - 1].SentCard?
            && var last := trace[|trace| - 1].card;
            && (stop == NotConnected <==> last == JiraNotConnectedCard())
            && (stop == NoBoard <==> last == NoBoardSelectedCard())
            && (stop == NoTickets <==> last == NoTicketsCard)
            && (stop.Failed? ==> last == FailureCard(stop.thrown))
            && (stop.Generated? && sent.Threw? ==> last == FailureCard(sent.thrown))
            && (stop.Generated? && sent.Done? ==> last == ReportCard(stop.report))
            && (forall r :: last == ReportCard(r) ==> stop.Generated? && sent.Done?)
  {
    var trace := Trace(run, sent);
    var head := [SentText(WorkingText)] + CallEffects(run.steps, Call);
    var fin := Finish(run.stop, sent);
    assert trace == head + fin;
    assert trace[|trace| - 1] == fin[|fin| - 1];
    FinishLast(run.stop, sent);
    FinishLastIsReport(run.stop, sent);
  }

  /** `Finish` ends with a report card only when the report was generated and sent. */
  lemma FinishLastIsReport(stop: Stop, sent: Outcome<()>)
    ensures var fin := Finish(stop, sent);
            fin != [] && fin[|fin| - 1].SentCard? &&
            forall r :: fin[|fin| - 1].card == ReportCard(r) ==> stop.Generated? && sent.Done?
  {
    CardsDiffer();
  }

  /** The last card of `Finish`, for each way a run can stop. */
  lemma FinishLast(stop: Stop, sent: Outcome<()>)
    ensures var fin := Finish(stop, sent);
            && fin != [] && fin[|fin| - 1].SentCard?
            && var last := fin[|fin| - 1].card;
            && (stop == NotConnected <==> last == JiraNotConnectedCard())
            && (stop == NoBoard <==> last == NoBoardSelectedCard())
            && (stop == NoTickets <==> last == NoTicketsCard)
            && (stop.Failed? ==> last == FailureCard(stop.thrown))
            && (stop.Generated? && sent.Threw? ==> last == FailureCard(sent.thrown))
            && (stop.Generated? && sent.Done? ==> last == ReportCard(stop.report))
  {
    CardsDiffer();
  }

  /** The cards of the early returns and of a failure are pairwise different: their
      titles differ, and the no-tickets card is a card of its own. */
  lemma CardsDiffer()
    ensures JiraNotConnectedCard() != NoBoardSelectedCard()
    ensures forall e :: FailureCard(e) != JiraNotConnectedCard() && FailureCard(e) != NoBoardSelectedCard()
    ensures forall r :: ReportCard(r) != JiraNotConnectedCard() && ReportCard(r) != NoBoardSelectedCard()
    ensures forall e, r :: FailureCard(e) != ReportCard(r)
    ensures forall r :: ReportCard(r) != NoTicketsCard
  {
    assert JiraNotConnectedCard().body[0].text[0] == 'J';
    assert NoBoardSelectedCard().body[0].text[0] == 'N';
    forall e ensures FailureCard(e) != JiraNotConnectedCard() && FailureCard(e) != NoBoardSelectedCard() {
      assert FailureCard(e).body[0].text[0] == 'E';
    }
    forall r ensures ReportCard(r) != JiraNotConnectedCard() && ReportCard(r) != NoBoardSelectedCard() {
      assert ReportCard(r).body[0].text[0] == 'W';
    }
    forall e, r ensures FailureCard(e) != ReportCard(r) {
      assert FailureCard(e).body[0].text[0] == 'E';
      assert ReportCard(r).body[0].text[0] == 'W';
    }
  }

  /** The report card comes only after the extracted names were saved: it shows the
      model's text with its blocks cut out, trimmed, and the call just before it saved
      the names extracted from that text. */
  lemma ReportCardAfterSave(calls: StandupCalls, sent: Outcome<()>, parse: string -> Option<Names>, i: nat)
    requires var trace := HandleStandupCommand(calls, sent, parse);
             i < |trace| && trace[i].SentCard? && trace[i].card.AdaptiveCard?
             && trace[i].card.body != [] && trace[i].card.body[0] == TextBlock("Weekly Standup Report")
    ensures var trace := HandleStandupCommand(calls, sent, parse);
            && calls.user.Done? && calls.answer.Done? && calls.answer.value != [] && calls.existingNames.Done?
            && i >= 1
            && var text := ResponseText(calls.answer.value).value;
               && trace[i] == SentCard(ReportCard(Trim(StripJsonBlocks(text))))
               && trace[i - 1]
                  == Called(SavedNames(calls.user.value, ExtractTicketNames(text, calls.existingNames.value, parse)))
  {
    var run := RunStandup(calls, parse);
    ReportCardLast(run, sent, i);
    GeneratedReport(calls, parse);
  }

  /** In a trace, the report card is only sent for a generated report, right after the
      last call of the run. */
  lemma ReportCardLast(run: Run, sent: Outcome<()>, i: nat)
    requires |run.steps| >= 1
    requires var trace := Trace(run, sent);
             i < |trace| && trace[i].SentCard? && trace[i].card.AdaptiveCard?
             && trace[i].card.body != [] && trace[i].card.body[0] == TextBlock("Weekly Standup Report")
    ensures var trace := Trace(run, sent);
            && run.stop.Generated? && i == |run.steps| + 1
            && trace[i] == SentCard(ReportCard(run.stop.report))
            && trace[i - 1] == Called(run.steps[|run.steps| - 1])
  {
    var head := [SentText(WorkingText)] + CallEffects(run.steps, Call);
    var fin := Finish(run.stop, sent);
    assert Trace(run, sent) == head + fin;
    FinishShape(run.stop, sent);
    CardAfterCalls(run.steps, fin, i);
  }

  /** A card after the calls of a run is one of the final effects, and the last call
      comes right before the first of those. */
  lemma CardAfterCalls(steps: seq<Step>, fin: seq<Effect>, i: nat)
    requires |steps| >= 1
    requires var trace := [SentText(WorkingText)] + CallEffects(steps, Call) + fin;
             i < |trace| && trace[i].SentCard?
    ensures var head := [SentText(WorkingText)] + CallEffects(steps, Call);
            var trace := head + fin;
            && |head| <= i && trace[i] == fin[i - |head|]
            && (i == |head| ==> trace[i - 1] == Called(steps[|steps| - 1]))
  {
    var head := [SentText(WorkingText)] + CallEffects(steps, Call);
    var trace := head + fin;
    if i < |head| {
      assert false;
    }
    if i == |head| {
      assert trace[i - 1] == head[|head| - 1];
    }
  }

  /** When every call and the send succeed, the command is: the working message, the
      seven calls, the report card. */
  lemma HappyTrace(userId: string, config: JiraConfig, tickets: seq<Ticket>,
                   existing: Names, content: seq<ContentBlock>, parse: string -> Option<Names>)
    requires Configured(Some(config)) && tickets != [] && content != []
    ensures var calls := StandupCalls(Done(userId), Done(true), Done(Some(config)), Done(tickets),
                                      Done(existing), Done(content), Done(()));
            var out := GenerateStandupReport(content, existing, parse).value;
            HandleStandupCommand(calls, Done(()), parse)
            == [SentText(WorkingText),
                Called(LookedUpUser), Called(CheckedToken(userId)), Called(ReadConfig(userId)),
                Called(FetchedTickets(userId, config.projectKey.value)), Called(ReadNames(userId)),
                Called(AskedModel(tickets, config.baseUrl, existing)),
                Called(SavedNames(userId, out.newTicketNames)),
                SentCard(ReportCard(out.report))]
  {
    var calls := StandupCalls(Done(userId), Done(true), Done(Some(config)), Done(tickets),
                              Done(existing), Done(content), Done(()));
    var out := GenerateStandupReport(content, existing, parse).value;
    HappyRun(userId, config, tickets, existing, content, parse);
    var steps := [LookedUpUser, CheckedToken(userId), ReadConfig(userId),
                  FetchedTickets(userId, config.projectKey.value), ReadNames(userId),
                  AskedModel(tickets, config.baseUrl, existing), SavedNames(userId, out.newTicketNames)];
    assert RunStandup(calls, parse) == Run(steps, Generated(out.report));
    HappyTraceOfSteps(steps, out.report);
  }

  lemma HappyTraceOfSteps(steps: seq<Step>, report: string)
    requires |steps| == 7
    ensures Trace(Run(steps, Generated(report)), Done(()))
         == [SentText(WorkingText), Called(steps[0]), Called(steps[1]), Called(steps[2]), Called(steps[3]),
             Called(steps[4]), Called(steps[5]), Called(steps[6]), SentCard(ReportCard(report))]
  {
    var calls := CallEffects(steps, Call);
    assert calls == [Called(steps[0]), Called(steps[1]), Called(steps[2]), Called(steps[3]),
                     Called(steps[4]), Called(steps[5]), Called(steps[6])];
    assert Finish(Generated(report), Done(())) == [SentCard(ReportCard(report))];
  }

  /** An empty ticket list sends the no-tickets card after the fetch: the model is not
      asked and no names are saved. */
  lemma NoTicketsTrace(userId: string, config: JiraConfig, calls: StandupCalls,
                       sent: Outcome<()>, parse: string -> Option<Names>)
    requires calls.user == Done(userId) && calls.hasJira == Done(true) && calls.config == Done(Some(config))
    requires Configured(Some(config)) && calls.tickets == Done([])
    ensures HandleStandupCommand(calls, sent, parse)
         == [SentText(WorkingText), Called(LookedUpUser), Called(CheckedToken(userId)),
             Called(ReadConfig(userId)), Called(FetchedTickets(userId, config.projectKey.value)),
             SentCard(NoTicketsCard)]
  {
    var steps := [LookedUpUser, CheckedToken(userId), ReadConfig(userId),
                  FetchedTickets(userId, config.projectKey.value)];
    var g := Generator(calls.answer, parse);
    assert AfterConfig(userId, config, calls, g) == Run([FetchedTickets(userId, config.projectKey.value)], NoTickets);
    assert RunStandup(calls, parse) == Run(steps, NoTickets);
    assert CallEffects(steps, Call) == [Called(steps[0]), Called(steps[1]), Called(steps[2]), Called(steps[3])];
  }
}

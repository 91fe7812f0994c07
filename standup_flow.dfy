/**
 * The steps the Slack `/weekly-standup` command and the Teams `standup` command share:
 * look the user up, check the Jira token, read the stored configuration, fetch the
 * tickets, read the known ticket names, ask the model, save the names it returns. Each
 * handler wraps the same sequence in its own messages, so the sequence is defined once
 * here and the two channel modules add what they send.
 *
 * Every awaited collaborator is an input `Outcome`; a run records the calls that were
 * made, in order, and how it stopped.
 */
module StandupFlow {
  import opened Wrappers
  import opened Text
  import opened Calls
  import opened JiraClient
  import opened Generate

  /** What the handler awaits, in the order it awaits it. */
  datatype StandupCalls = StandupCalls(
    user: Outcome<string>,                 // getOrCreate...User(...).id
    hasJira: Outcome<bool>,                // hasValidToken(user.id, 'jira')
    config: Outcome<Option<JiraConfig>>,   // getJiraConfig(user.id)
    tickets: Outcome<seq<Ticket>>,         // fetchTickets({ userId, projectKey })
    existingNames: Outcome<Names>,         // getTicketNames(user.id)
    answer: Outcome<seq<ContentBlock>>,    // the model's answer inside generateStandupReport
    saved: Outcome<()>)                    // saveTicketNames(user.id, newTicketNames)

  /** A call the handler made. */
  datatype Step =
    | LookedUpUser
    | CheckedToken(userId: string)
    | ReadConfig(userId: string)
    | FetchedTickets(userId: string, projectKey: string)
    | ReadNames(userId: string)
    | AskedModel(tickets: seq<Ticket>, baseUrl: Option<string>, existing: Names)
    | SavedNames(userId: string, names: Names)

  /** The calls of a run as a channel's effects, `called` being the channel's own effect for a
      call: one effect per call, in the order of the calls. */
  function CallEffects<E>(steps: seq<Step>, called: Step -> E): (es: seq<E>)
    ensures |es| == |steps| && forall i :: 0 <= i < |steps| ==> es[i] == called(steps[i])
  {
    if steps == [] then [] else [called(steps[0])] + CallEffects(steps[1..], called)
  }

  /** How a run ends: one of the early returns, a thrown value, or a saved report. */
  datatype Stop =
    | NotConnected
    | NoBoard
    | NoTickets
    | Failed(thrown: Thrown)
    | Generated(report: string)

  datatype Run = Run(steps: seq<Step>, stop: Stop)

  /** `!jiraConfig?.board_id || !jiraConfig?.project_key` fails: a stored configuration
      with a non-zero board id and a non-empty project key. */
  predicate Configured(config: Option<JiraConfig>) {
    config.Some? && Truthy(config.value.boardId)
    && config.value.projectKey.Some? && config.value.projectKey.value != []
  }

  /** The body of the `try` block. */
  function RunStandup(calls: StandupCalls, parse: string -> Option<Names>): Run {
    RunWith(calls, Generator(calls.answer, parse))
  }

  /** The run for a given generator call. */
  function RunWith(calls: StandupCalls, generate: Names -> Outcome<StandupReport>): (run: Run)
    ensures |run.steps| >= 1 && run.steps[0] == LookedUpUser
  {
    match calls.user
    case Threw(e) => Run([LookedUpUser], Failed(e))
    case Done(userId) =>
      var run := AfterUser(userId, calls, generate);
      Run([LookedUpUser] + run.steps, run.stop)
  }

  /** `generateStandupReport` on the model's answer, for given known names. */
  function Generator(answer: Outcome<seq<ContentBlock>>, parse: string -> Option<Names>): Names -> Outcome<StandupReport> {
    existing => GenerateCall(answer, existing, parse)
  }

  /** The rest of the run once the user is known; `generate` is the generator call for
      given known names. */
  function AfterUser(userId: string, calls: StandupCalls, generate: Names -> Outcome<StandupReport>): Run {
    match calls.hasJira
    case Threw(e) => Run([CheckedToken(userId)], Failed(e))
    case Done(hasJira) =>
      if !hasJira then Run([CheckedToken(userId)], NotConnected)
      else
        match calls.config
        case Threw(e) => Run([CheckedToken(userId), ReadConfig(userId)], Failed(e))
        case Done(config) =>
          if !Configured(config) then Run([CheckedToken(userId), ReadConfig(userId)], NoBoard)
          else
            var run := AfterConfig(userId, config.value, calls, generate);
            Run([CheckedToken(userId), ReadConfig(userId)] + run.steps, run.stop)
  }

  function AfterConfig(userId: string, config: JiraConfig, calls: StandupCalls,
                       generate: Names -> Outcome<StandupReport>): Run
    requires config.projectKey.Some?
  {
    var fetch := FetchedTickets(userId, config.projectKey.value);
    match calls.tickets
    case Threw(e) => Run([fetch], Failed(e))
    case Done(tickets) =>
      if |tickets| == 0 then Run([fetch], NoTickets)
      else
        match calls.existingNames
        case Threw(e) => Run([fetch, ReadNames(userId)], Failed(e))
        case Done(existing) =>
          var ask := AskedModel(tickets, config.baseUrl, existing);
          match generate(existing)
          case Threw(e) => Run([fetch, ReadNames(userId), ask], Failed(e))
          case Done(out) =>
            var save := SavedNames(userId, out.newTicketNames);
            match calls.saved
            case Threw(e) => Run([fetch, ReadNames(userId), ask, save], Failed(e))
            case Done(_) => Run([fetch, ReadNames(userId), ask, save], Generated(out.report))
  }

  // ---------------------------------------------------------------------
  // properties of a run

  /** The model is asked only with tickets to report on, and only after the token check
      passed and the configuration was found complete. */
  lemma ModelAskedOnlyWithTickets(calls: StandupCalls, parse: string -> Option<Names>)
    ensures var run := RunStandup(calls, parse);
            forall s :: s in run.steps && s.AskedModel? ==>
              && s.tickets != []
              && calls.hasJira == Done(true)
              && calls.config.Done? && Configured(calls.config.value)
              && calls.tickets == Done(s.tickets)
  {
    var run := RunStandup(calls, parse);
    if calls.user.Done? {
      var rest := AfterUser(calls.user.value, calls, Generator(calls.answer, parse));
      assert run.steps == [LookedUpUser] + rest.steps;
      forall s | s in run.steps && s.AskedModel?
        ensures s.tickets != [] && calls.hasJira == Done(true)
        ensures calls.config.Done? && Configured(calls.config.value) && calls.tickets == Done(s.tickets)
      {
        assert s in rest.steps;
        AskedAfterUser(calls.user.value, calls, Generator(calls.answer, parse), s);
      }
    }
  }

  lemma AskedAfterUser(userId: string, calls: StandupCalls, generate: Names -> Outcome<StandupReport>, s: Step)
    requires s in AfterUser(userId, calls, generate).steps && s.AskedModel?
    ensures calls.hasJira == Done(true) && calls.config.Done? && Configured(calls.config.value)
    ensures s.tickets != [] && calls.tickets == Done(s.tickets)
  {
    var front := [CheckedToken(userId), ReadConfig(userId)];
    assert s !in front;
    assert calls.hasJira == Done(true) && calls.config.Done? && Configured(calls.config.value);
    var rest := AfterConfig(userId, calls.config.value.value, calls, generate);
    assert AfterUser(userId, calls, generate).steps == front + rest.steps;
    AskedAfterConfig(userId, calls.config.value.value, calls, generate, s);
  }

  lemma AskedAfterConfig(userId: string, config: JiraConfig, calls: StandupCalls,
                         generate: Names -> Outcome<StandupReport>, s: Step)
    requires config.projectKey.Some?
    requires s in AfterConfig(userId, config, calls, generate).steps && s.AskedModel?
    ensures s.tickets != [] && calls.tickets == Done(s.tickets)
  {
  }

  /** Each early return happens exactly when its condition holds. */
  lemma EarlyReturns(calls: StandupCalls, parse: string -> Option<Names>)
    ensures var stop := RunStandup(calls, parse).stop;
            && (stop == NotConnected <==> calls.user.Done? && calls.hasJira == Done(false))
            && (stop == NoBoard <==>
                  calls.user.Done? && calls.hasJira == Done(true)
                  && calls.config.Done? && !Configured(calls.config.value))
            && (stop == NoTickets <==>
                  calls.user.Done? && calls.hasJira == Done(true)
                  && calls.config.Done? && Configured(calls.config.value) && calls.tickets == Done([]))
  {
  }

  /** A report comes out only when every call succeeded; it is the model's text with its
      blocks cut out, trimmed, and the names saved just before are the ones extracted
      from that text, merged over the known ones. */
  lemma GeneratedReport(calls: StandupCalls, parse: string -> Option<Names>)
    ensures var run := RunStandup(calls, parse);
            run.stop.Generated? ==>
              && calls.user.Done? && calls.hasJira == Done(true)
              && calls.config.Done? && Configured(calls.config.value)
              && calls.tickets.Done? && calls.tickets.value != []
              && calls.existingNames.Done?
              && calls.answer.Done? && calls.answer.value != []
              && calls.saved.Done? && run.steps != []
              && var text := ResponseText(calls.answer.value).value;
                 && run.stop.report == Trim(StripJsonBlocks(text))
                 && run.steps[|run.steps| - 1]
                    == SavedNames(calls.user.value, ExtractTicketNames(text, calls.existingNames.value, parse))
  {
  }

  /** When every call succeeds on a complete configuration with tickets, the run is the
      seven calls in order and ends with the report. */
  lemma HappyRun(userId: string, config: JiraConfig, tickets: seq<Ticket>, existing: Names,
                 content: seq<ContentBlock>, parse: string -> Option<Names>)
    requires Configured(Some(config)) && tickets != [] && content != []
    ensures var calls := StandupCalls(Done(userId), Done(true), Done(Some(config)), Done(tickets),
                                      Done(existing), Done(content), Done(()));
            var out := GenerateStandupReport(content, existing, parse).value;
            RunStandup(calls, parse)
            == Run([LookedUpUser, CheckedToken(userId), ReadConfig(userId),
                    FetchedTickets(userId, config.projectKey.value), ReadNames(userId),
                    AskedModel(tickets, config.baseUrl, existing), SavedNames(userId, out.newTicketNames)],
                   Generated(out.report))
  {
    var calls := StandupCalls(Done(userId), Done(true), Done(Some(config)), Done(tickets),
                              Done(existing), Done(content), Done(()));
    var out := GenerateStandupReport(content, existing, parse).value;
    var g := Generator(Done(content), parse);
    assert g(existing) == Done(out) by {
      assert GenerateCall(Done(content), existing, parse) == Done(out);
    }
    RunWithReport(calls, config, g, out);
  }

  /** The run when every call succeeds and the generator returns `out`. */
  lemma RunWithReport(calls: StandupCalls, config: JiraConfig, generate: Names -> Outcome<StandupReport>, out: StandupReport)
    requires calls.user.Done? && calls.hasJira == Done(true) && calls.config == Done(Some(config))
    requires Configured(Some(config)) && calls.tickets.Done? && calls.tickets.value != []
    requires calls.existingNames.Done? && calls.saved.Done?
    requires generate(calls.existingNames.value) == Done(out)
    ensures RunWith(calls, generate)
         == Run([LookedUpUser, CheckedToken(calls.user.value), ReadConfig(calls.user.value),
                 FetchedTickets(calls.user.value, config.projectKey.value), ReadNames(calls.user.value),
                 AskedModel(calls.tickets.value, config.baseUrl, calls.existingNames.value),
                 SavedNames(calls.user.value, out.newTicketNames)],
                Generated(out.report))
  {
    var userId := calls.user.value;
    var tail := AfterConfig(userId, config, calls, generate);
    assert tail.steps == [FetchedTickets(userId, config.projectKey.value), ReadNames(userId),
                          AskedModel(calls.tickets.value, config.baseUrl, calls.existingNames.value),
                          SavedNames(userId, out.newTicketNames)]
        && tail.stop == Generated(out.report) by {
      AfterConfigHappy(userId, config, calls, generate, out);
    }
    var front := [CheckedToken(userId), ReadConfig(userId)];
    assert AfterUser(userId, calls, generate) == Run(front + tail.steps, tail.stop);
  }

  lemma AfterConfigHappy(userId: string, config: JiraConfig, calls: StandupCalls,
                         generate: Names -> Outcome<StandupReport>, out: StandupReport)
    requires config.projectKey.Some? && calls.tickets.Done? && calls.tickets.value != []
    requires calls.existingNames.Done? && generate(calls.existingNames.value) == Done(out) && calls.saved.Done?
    ensures AfterConfig(userId, config, calls, generate)
         == Run([FetchedTickets(userId, config.projectKey.value), ReadNames(userId),
                 AskedModel(calls.tickets.value, config.baseUrl, calls.existingNames.value),
                 SavedNames(userId, out.newTicketNames)],
                Generated(out.report))
  {
  }

  /** The token check passed and the stored configuration is complete: the run goes on
      to fetch the tickets. */
  predicate PassedGuards(calls: StandupCalls) {
    calls.user.Done? && calls.hasJira == Done(true) && calls.config.Done? && Configured(calls.config.value)
  }

  /** The calls up to and including the ticket fetch. */
  function UpToFetch(calls: StandupCalls): seq<Step>
    requires PassedGuards(calls)
  {
    var userId := calls.user.value;
    [LookedUpUser, CheckedToken(userId), ReadConfig(userId),
     FetchedTickets(userId, calls.config.value.value.projectKey.value)]
  }

  /** A thrown value ends the run at the call that threw: each awaited call, once every
      call before it succeeded, stops the run with its own thrown value as the last call
      made. The generator throws what the model's request threw, or the error for an
      answer without content. */
  lemma ThrowStops(calls: StandupCalls, parse: string -> Option<Names>)
    ensures var run := RunStandup(calls, parse);
            && (calls.user.Threw? ==> run == Run([LookedUpUser], Failed(calls.user.thrown)))
            && (calls.user.Done? && calls.hasJira.Threw? ==>
                  run == Run([LookedUpUser, CheckedToken(calls.user.value)], Failed(calls.hasJira.thrown)))
            && (calls.user.Done? && calls.hasJira == Done(true) && calls.config.Threw? ==>
                  run == Run([LookedUpUser, CheckedToken(calls.user.value), ReadConfig(calls.user.value)],
                             Failed(calls.config.thrown)))
            && (PassedGuards(calls) && calls.tickets.Threw? ==>
                  run == Run(UpToFetch(calls), Failed(calls.tickets.thrown)))
            && (PassedGuards(calls) && calls.tickets.Done? && calls.tickets.value != []
                && calls.existingNames.Threw? ==>
                  run == Run(UpToFetch(calls) + [ReadNames(calls.user.value)], Failed(calls.existingNames.thrown)))
            && (PassedGuards(calls) && calls.tickets.Done? && calls.tickets.value != []
                && calls.existingNames.Done?
                && GenerateCall(calls.answer, calls.existingNames.value, parse).Threw? ==>
                  run == Run(UpToFetch(calls) + [ReadNames(calls.user.value),
                                                 AskedModel(calls.tickets.value, calls.config.value.value.baseUrl,
                                                            calls.existingNames.value)],
                             Failed(GenerateCall(calls.answer, calls.existingNames.value, parse).thrown)))
            && (PassedGuards(calls) && calls.tickets.Done? && calls.tickets.value != []
                && calls.existingNames.Done?
                && GenerateCall(calls.answer, calls.existingNames.value, parse).Done? && calls.saved.Threw? ==>
                  run == Run(UpToFetch(calls) + [ReadNames(calls.user.value),
                                                 AskedModel(calls.tickets.value, calls.config.value.value.baseUrl,
                                                            calls.existingNames.value),
                                                 SavedNames(calls.user.value,
                                                            GenerateCall(calls.answer, calls.existingNames.value, parse)
                                                            .value.newTicketNames)],
                             Failed(calls.saved.thrown)))
  {
    if PassedGuards(calls) {
      LateThrows(calls, parse);
    }
  }

  /** The part of `ThrowStops` after the guards passed. */
  lemma LateThrows(calls: StandupCalls, parse: string -> Option<Names>)
    requires PassedGuards(calls)
    ensures var run := RunStandup(calls, parse);
            var names := calls.existingNames;
            && (calls.tickets.Threw? ==> run == Run(UpToFetch(calls), Failed(calls.tickets.thrown)))
            && (calls.tickets.Done? && calls.tickets.value != [] && names.Threw? ==>
                  run == Run(UpToFetch(calls) + [ReadNames(calls.user.value)], Failed(names.thrown)))
            && (calls.tickets.Done? && calls.tickets.value != [] && names.Done? ==>
                  var generated := GenerateCall(calls.answer, names.value, parse);
                  var ask := AskedModel(calls.tickets.value, calls.config.value.value.baseUrl, names.value);
                  && (generated.Threw? ==>
                        run == Run(UpToFetch(calls) + [ReadNames(calls.user.value), ask], Failed(generated.thrown)))
                  && (generated.Done? && calls.saved.Threw? ==>
                        run == Run(UpToFetch(calls) + [ReadNames(calls.user.value), ask,
                                                       SavedNames(calls.user.value, generated.value.newTicketNames)],
                                   Failed(calls.saved.thrown))))
  {
    var userId := calls.user.value;
    var config := calls.config.value.value;
    var generate := Generator(calls.answer, parse);
    ThrowsAfterConfig(userId, config, calls, generate);
    RunAfterGuards(calls, generate);
  }

  /** Once the guards passed, the run is the calls up to the fetch, then the rest of the
      run after the configuration. */
  lemma RunAfterGuards(calls: StandupCalls, generate: Names -> Outcome<StandupReport>)
    requires PassedGuards(calls)
    ensures var tail := AfterConfig(calls.user.value, calls.config.value.value, calls, generate);
            && tail.steps != []
            && RunWith(calls, generate) == Run(UpToFetch(calls) + tail.steps[1..], tail.stop)
  {
    var userId := calls.user.value;
    var config := calls.config.value.value;
    var tail := AfterConfig(userId, config, calls, generate);
    FetchFirst(userId, config, calls, generate);
    assert RunWith(calls, generate)
        == Run([LookedUpUser] + ([CheckedToken(userId), ReadConfig(userId)] + tail.steps), tail.stop);
    GluedAfterConfig([LookedUpUser, CheckedToken(userId), ReadConfig(userId)], tail.steps,
                     FetchedTickets(userId, config.projectKey.value));
  }

  /** Past the configuration, the first call fetches the tickets. */
  lemma FetchFirst(userId: string, config: JiraConfig, calls: StandupCalls,
                   generate: Names -> Outcome<StandupReport>)
    requires config.projectKey.Some?
    ensures var run := AfterConfig(userId, config, calls, generate);
            run.steps != [] && run.steps[0] == FetchedTickets(userId, config.projectKey.value)
  {
  }

  /** After the configuration, a throw from the tickets, the names, the generator or the
      save stops the run with that call last. */
  lemma ThrowsAfterConfig(userId: string, config: JiraConfig, calls: StandupCalls,
                          generate: Names -> Outcome<StandupReport>)
    requires config.projectKey.Some?
    ensures var run := AfterConfig(userId, config, calls, generate);
            var fetch := FetchedTickets(userId, config.projectKey.value);
            && (calls.tickets.Threw? ==> run == Run([fetch], Failed(calls.tickets.thrown)))
            && (calls.tickets.Done? && calls.tickets.value != [] && calls.existingNames.Threw? ==>
                  run == Run([fetch, ReadNames(userId)], Failed(calls.existingNames.thrown)))
            && (calls.tickets.Done? && calls.tickets.value != [] && calls.existingNames.Done?
                && generate(calls.existingNames.value).Threw? ==>
                  run == Run([fetch, ReadNames(userId),
                              AskedModel(calls.tickets.value, config.baseUrl, calls.existingNames.value)],
                             Failed(generate(calls.existingNames.value).thrown)))
            && (calls.tickets.Done? && calls.tickets.value != [] && calls.existingNames.Done?
                && generate(calls.existingNames.value).Done? && calls.saved.Threw? ==>
                  run == Run([fetch, ReadNames(userId),
                              AskedModel(calls.tickets.value, config.baseUrl, calls.existingNames.value),
                              SavedNames(userId, generate(calls.existingNames.value).value.newTicketNames)],
                             Failed(calls.saved.thrown)))
  {
  }

  /** The calls before the fetch, glued to the calls from the fetch on. */
  lemma GluedAfterConfig(front: seq<Step>, steps: seq<Step>, fetch: Step)
    requires |front| == 3 && steps != [] && steps[0] == fetch
    ensures [front[0]] + ([front[1], front[2]] + steps) == front + [fetch] + steps[1..]
  {
    assert steps == [fetch] + steps[1..];
  }
}

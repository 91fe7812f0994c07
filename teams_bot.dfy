/**
 * The Teams bot's activity handling: whether a message is a card submission, how a
 * typed message is normalised and freed of the bot's @mention, where each command and
 * card action goes, and whom the bot greets when members join.
 */
module TeamsBot {
  import opened Wrappers
  import opened Text

  /** An entity of an activity: its `type`, the id of the account it mentions, and the
      text of the mention as it appears in the message. */
  datatype Entity = Entity(kind: string, mentionedId: Option<string>, text: Option<string>)

  /** The `value` a submitted card carries; only its `action` matters for routing. */
  datatype CardValue = CardValue(action: Option<string>)

  datatype Activity = Activity(
    text: Option<string>,
    value: Option<CardValue>,
    entities: Option<seq<Entity>>,
    recipientId: string)

  /** Where an activity is handed. */
  datatype Route =
    | SetupCommand
    | SetupAction(action: string)
    | StandupCommand
    | ShowHelp
    | Reply(text: string)

  // ---------------------------------------------------------------------
  // card actions

  /** `context.activity.value && context.activity.value.action`. */
  predicate IsCardAction(value: Option<CardValue>) {
    value.Some? && value.value.action.Some? && value.value.action.value != []
  }

  /** `handleCardAction`: the three setup actions go to the setup handler, `standup` to
      the standup command, and anything else is answered with its name. */
  function CardActionRoute(action: string): (r: Route)
    ensures r.SetupAction? <==> action in {"setup", "changeBoard", "selectBoard"}
    ensures r.SetupAction? ==> r.action == action
    ensures r == StandupCommand <==> action == "standup"
    ensures r.Reply? <==> action !in {"setup", "changeBoard", "selectBoard", "standup"}
    ensures r.Reply? ==> r.text == "Unknown action: " + action
  {
    if action == "setup" || action == "changeBoard" || action == "selectBoard" then SetupAction(action)
    else if action == "standup" then StandupCommand
    else Reply("Unknown action: " + action)
  }

  // ---------------------------------------------------------------------
  // typed messages

  /** `context.activity.text?.trim().toLowerCase() || ''`. */
  function NormaliseText(text: Option<string>): (r: string)
    ensures text.None? ==> r == []
    ensures text.Some? ==> r == ToLower(Trim(text.value))
  {
    match text
    case None => []
    case Some(t) => ToLower(Trim(t))
  }

  /** The entities of type `mention`, in order; none when the activity has no entities. */
  function Mentions(entities: Option<seq<Entity>>): (ms: seq<Entity>)
    ensures forall m :: m in ms <==> entities.Some? && m in entities.value && m.kind == "mention"
    ensures entities.Some? ==> |ms| <= |entities.value|
  {
    if entities.None? then [] else MentionsIn(entities.value)
  }

  function MentionsIn(es: seq<Entity>): (ms: seq<Entity>)
    ensures forall m :: m in ms <==> m in es && m.kind == "mention"
    ensures |ms| <= |es|
  {
    if es == [] then []
    else (if es[0].kind == "mention" then [es[0]] else []) + MentionsIn(es[1..])
  }

  /** The filter keeps order: the mentions of two lists in a row are the mentions of the
      first, then those of the second. */
  lemma {:induction false} MentionsAppend(a: seq<Entity>, b: seq<Entity>)
    ensures MentionsIn(a + b) == MentionsIn(a) + MentionsIn(b)
  {
    if a != [] {
      assert (a + b)[1..] == a[1..] + b;
      MentionsAppend(a[1..], b);
    } else {
      assert a + b == b;
    }
  }

  /** A single entity is kept exactly when it is a mention. */
  lemma MentionsOne(e: Entity)
    ensures MentionsIn([e]) == (if e.kind == "mention" then [e] else [])
  {
    assert [e][1..] == [];
  }

  /** One step of the loop: a mention of the bot has its lowercased text (or `''`)
      removed at its first occurrence, and the result is trimmed; any other mention
      changes nothing. */
  function StripOne(text: string, m: Entity, recipientId: string): string {
    if m.mentionedId == Some(recipientId) then Trim(RemoveFirst(text, ToLower(OrElse(m.text, ""))))
    else text
  }

  /** The text left after the mentions, taken in order. */
  function StripMentions(text: string, mentions: seq<Entity>, recipientId: string): string
    decreases mentions
  {
    if mentions == [] then text
    else StripMentions(StripOne(text, mentions[0], recipientId), mentions[1..], recipientId)
  }

  /** `removeBotMention`: without mentions the text is returned as it is; otherwise each
      mention is applied in turn to `cleanedText`. */
  method RemoveBotMention(text: string, entities: Option<seq<Entity>>, recipientId: string)
    returns (cleanedText: string)
    ensures cleanedText == StripMentions(text, Mentions(entities), recipientId)
  {
    var mentions := Mentions(entities);
    if |mentions| == 0 {
      return text;
    }
    cleanedText := text;
    var i := 0;
    while i < |mentions|
      invariant 0 <= i <= |mentions|
      invariant StripMentions(cleanedText, mentions[i..], recipientId) == StripMentions(text, mentions, recipientId)
    {
      assert mentions[i..][1..] == mentions[i + 1..];
      if mentions[i].mentionedId == Some(recipientId) {
        var mentionText := ToLower(OrElse(mentions[i].text, ""));
        cleanedText := Trim(RemoveFirst(cleanedText, mentionText));
      }
      i := i + 1;
    }
  }

  /** Mentions of anyone but the bot leave the text exactly as it was (not even trimmed). */
  lemma {:induction false} OtherMentionsKeepText(text: string, mentions: seq<Entity>, recipientId: string)
    requires forall m :: m in mentions ==> m.mentionedId != Some(recipientId)
    ensures StripMentions(text, mentions, recipientId) == text
  {
    if mentions != [] {
      assert mentions[0] in mentions;
      forall m | m in mentions[1..] ensures m.mentionedId != Some(recipientId) {
        assert m in mentions;
      }
      OtherMentionsKeepText(text, mentions[1..], recipientId);
    }
  }

  /** An activity without mention entities keeps its text. */
  lemma NoMentionKeepsText(text: string, entities: Option<seq<Entity>>, recipientId: string)
    requires entities.None? || forall e :: e in entities.value ==> e.kind != "mention"
    ensures StripMentions(text, Mentions(entities), recipientId) == text
  {
    if entities.Some? {
      NoMentionEntities(entities.value);
    }
  }

  lemma {:induction false} NoMentionEntities(es: seq<Entity>)
    requires forall e :: e in es ==> e.kind != "mention"
    ensures MentionsIn(es) == []
  {
    if es != [] {
      assert es[0] in es;
      forall e | e in es[1..] ensures e.kind != "mention" {
        assert e in es;
      }
      NoMentionEntities(es[1..]);
    }
  }

  /** A message that starts with the bot's mention, then a space, then a trimmed command
      is left with the command alone. */
  lemma {:induction false} LeadingMentionStripped(mentionText: string, command: string, recipientId: string)
    requires command == [] || (!IsSpace(command[0]) && !IsSpace(command[|command| - 1]))
    ensures var m := Entity("mention", Some(recipientId), Some(mentionText));
            StripMentions(ToLower(mentionText) + " " + command, [m], recipientId) == command
  {
    var m := Entity("mention", Some(recipientId), Some(mentionText));
    var pat := ToLower(mentionText);
    var rest := " " + command;
    assert pat + rest == pat + " " + command;
    MentionPattern(mentionText);
    RemoveLeading(pat, rest);
    TrimLeadingSpace(command);
    StripSingle(pat + rest, m, recipientId);
  }

  lemma MentionPattern(mentionText: string)
    ensures ToLower(OrElse(Some(mentionText), "")) == ToLower(mentionText)
  {
    if mentionText == [] {
      assert ToLower(mentionText) == [];
    }
  }

  lemma StripSingle(s: string, m: Entity, recipientId: string)
    ensures StripMentions(s, [m], recipientId) == StripOne(s, m, recipientId)
  {
    assert [m][1..] == [];
  }

  lemma RemoveLeading(pat: string, rest: string)
    ensures RemoveFirst(pat + rest, pat) == rest
  {
    var s := pat + rest;
    assert s[0..|pat|] == pat;
    IndexOfFirst(s, pat, 0, 0);
    assert s[|pat|..] == rest;
  }

  lemma TrimLeadingSpace(command: string)
    requires command == [] || (!IsSpace(command[0]) && !IsSpace(command[|command| - 1]))
    ensures Trim(" " + command) == command
  {
    TrimStartAppend(" ", command);
    TrimOfTrimmed(command);
  }

  /** `handleMessage`'s `switch`: `setup`; `standup`, `weekly` or `report`; `help` or
      nothing; anything else is echoed in a hint. */
  function MessageRoute(cleanedText: string): (r: Route)
    ensures r == SetupCommand <==> cleanedText == "setup"
    ensures r == StandupCommand <==> cleanedText in {"standup", "weekly", "report"}
    ensures r == ShowHelp <==> cleanedText in {"help", ""}
    ensures r.Reply? <==> cleanedText !in {"setup", "standup", "weekly", "report", "help", ""}
    ensures r.Reply? ==>
              r.text == "I didn't understand \"" + cleanedText + "\". Try \"setup\", \"standup\", or \"help\"."
    ensures !r.SetupAction?
  {
    if cleanedText == "setup" then SetupCommand
    else if cleanedText in {"standup", "weekly", "report"} then StandupCommand
    else if cleanedText in {"help", ""} then ShowHelp
    else Reply("I didn't understand \"" + cleanedText + "\". Try \"setup\", \"standup\", or \"help\".")
  }

  /** `onMessage`: a card submission goes by its action, anything else by its cleaned
      text. */
  function OnMessage(a: Activity): (r: Route)
    ensures IsCardAction(a.value) ==> r == CardActionRoute(a.value.value.action.value)
    ensures !IsCardAction(a.value) ==>
              r == MessageRoute(StripMentions(NormaliseText(a.text), Mentions(a.entities), a.recipientId))
  {
    if IsCardAction(a.value) then CardActionRoute(a.value.value.action.value)
    else MessageRoute(StripMentions(NormaliseText(a.text), Mentions(a.entities), a.recipientId))
  }

  lemma ToLowerAppend(a: string, b: string)
    ensures ToLower(a + b) == ToLower(a) + ToLower(b)
  {
    var l := ToLower(a + b);
    var r := ToLower(a) + ToLower(b);
    assert |l| == |r|;
    forall i | 0 <= i < |l| ensures l[i] == r[i] {
      if i < |a| {
        assert (a + b)[i] == a[i];
      } else {
        assert (a + b)[i] == b[i - |a|];
      }
    }
  }

  /** "@Bot <command>", with the mention the bot receives, is routed as the command
      alone, whatever the case of the mention: "@Bot standup" runs the standup command. */
  lemma {:induction false} MentionThenCommand(mentionText: string, command: string, recipientId: string,
                                              entities: seq<Entity>)
    requires mentionText != [] && !IsSpace(mentionText[0])
    requires command != [] && !IsSpace(command[0]) && !IsSpace(command[|command| - 1])
    requires ToLower(command) == command
    requires entities == [Entity("mention", Some(recipientId), Some(mentionText))]
    ensures OnMessage(Activity(Some(mentionText + " " + command), None, Some(entities), recipientId))
            == MessageRoute(command)
  {
    NormalisedCommand(mentionText, command);
    assert Mentions(Some(entities)) == entities by {
      assert MentionsIn(entities[1..]) == [];
    }
    LeadingMentionStripped(mentionText, command, recipientId);
  }

  lemma NormalisedCommand(mentionText: string, command: string)
    requires mentionText != [] && !IsSpace(mentionText[0])
    requires command != [] && !IsSpace(command[|command| - 1])
    requires ToLower(command) == command
    ensures NormaliseText(Some(mentionText + " " + command)) == ToLower(mentionText) + " " + command
  {
    var typed := mentionText + " " + command;
    assert Trim(typed) == typed by {
      assert typed[|typed| - 1] == command[|command| - 1];
      TrimOfTrimmed(typed);
    }
    LowerKeepsCommand(mentionText, command);
  }

  lemma LowerKeepsCommand(mentionText: string, command: string)
    requires ToLower(command) == command
    ensures ToLower(mentionText + " " + command) == ToLower(mentionText) + " " + command
  {
    var rest := " " + command;
    assert mentionText + " " + command == mentionText + rest;
    assert ToLower(rest) == rest by {
      assert rest[1..] == command;
      assert LowerChar(rest[0]) == ' ';
    }
    ToLowerAppend(mentionText, rest);
  }

  // ---------------------------------------------------------------------
  // new members

  /** The members that get a help card: every added member but the bot, in order. */
  function Greeted(members: seq<string>, recipientId: string): (g: seq<string>)
    ensures |g| <= |members|
  {
    if members == [] then []
    else (if members[0] != recipientId then [members[0]] else []) + Greeted(members[1..], recipientId)
  }

  /** The members-added loop: one help card for each added member that is not the bot;
      the result lists the members greeted, in the order their cards were sent. */
  method GreetMembers(membersAdded: Option<seq<string>>, recipientId: string) returns (greeted: seq<string>)
    ensures greeted == Greeted(membersAdded.GetOr([]), recipientId)
  {
    var members := membersAdded.GetOr([]);
    greeted := [];
    for i := 0 to |members|
      invariant greeted + Greeted(members[i..], recipientId) == Greeted(members, recipientId)
    {
      GreetedStep(members, i, recipientId);
      if members[i] != recipientId {
        assert (greeted + [members[i]]) + Greeted(members[i + 1..], recipientId)
            == greeted + ([members[i]] + Greeted(members[i + 1..], recipientId));
        greeted := greeted + [members[i]];
      }
    }
    assert members[|members|..] == [];
  }

  lemma GreetedStep(members: seq<string>, i: nat, recipientId: string)
    requires i < |members|
    ensures Greeted(members[i..], recipientId)
         == (if members[i] != recipientId then [members[i]] else []) + Greeted(members[i + 1..], recipientId)
  {
    assert members[i..][1..] == members[i + 1..];
  }

  /** Exactly the added members other than the bot are greeted, each once per time they
      appear in the list, and the bot never. */
  lemma {:induction false} GreetedAreTheOthers(members: seq<string>, recipientId: string)
    ensures forall x :: x in Greeted(members, recipientId) <==> x in members && x != recipientId
    ensures forall x :: x != recipientId ==>
              multiset(Greeted(members, recipientId))[x] == multiset(members)[x]
    ensures recipientId !in Greeted(members, recipientId)
  {
    if members != [] {
      GreetedAreTheOthers(members[1..], recipientId);
      assert members == [members[0]] + members[1..];
    }
  }
}

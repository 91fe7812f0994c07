/**
 * What `generateStandupReport` does with the model's answer: pick the system prompt,
 * read the text of the first content block, take the ticket names out of the first
 * fenced JSON block and merge them over the existing ones, and cut every complete
 * fenced JSON block out of the report before trimming it.
 *
 * `JSON.parse` together with the object spread of its result is the parameter `parse`:
 * `None` stands for a thrown `SyntaxError`, `Some(m)` for the own properties of the
 * parsed value.
 */
module Generate {
  import opened Wrappers
  import opened Text
  import opened Calls

  type Names = map<string, string>

  // ---------------------------------------------------------------------
  // system prompt

  datatype SystemPrompt = DefaultPrompt | CustomPrompt(text: string)

  /** `customFormatting || DEFAULT_SYSTEM_PROMPT`: a missing or empty custom text falls
      back to the default prompt. */
  function ChooseSystemPrompt(customFormatting: Option<string>): (p: SystemPrompt)
    ensures p.CustomPrompt? <==> customFormatting.Some? && customFormatting.value != []
    ensures p.CustomPrompt? ==> p.text == customFormatting.value
  {
    match customFormatting
    case Some(t) => if t != [] then CustomPrompt(t) else DefaultPrompt
    case None => DefaultPrompt
  }

  // ---------------------------------------------------------------------
  // fenced JSON blocks

  const OpenFence: string := "```json"
  const Fence: string := "```"

  /** A complete block: `open` is where its "```json" starts, `close` where the closing
      fence starts. */
  datatype Block = Block(open: nat, close: nat)

  /** The leftmost complete block, as both regexes of the source find it: the first
      "```json" and the first "```" after it (the capture is lazy). A later "```json"
      cannot start a block when the first one has no closing fence after it. */
  function FirstBlock(s: string): (b: Option<Block>)
    ensures b.Some? ==> OccursAt(s, OpenFence, b.value.open) && OccursAt(s, Fence, b.value.close)
    ensures b.Some? ==> b.value.open + |OpenFence| <= b.value.close
    ensures b.Some? ==> forall j :: 0 <= j < b.value.open ==> !OccursAt(s, OpenFence, j)
    ensures b.Some? ==> forall j :: b.value.open + |OpenFence| <= j < b.value.close ==> !OccursAt(s, Fence, j)
    ensures b.None? ==> forall p, c :: OccursAt(s, OpenFence, p) && p + |OpenFence| <= c ==> !OccursAt(s, Fence, c)
  {
    match IndexOf(s, OpenFence, 0)
    case None => None
    case Some(p) =>
      match IndexOf(s, Fence, p + |OpenFence|)
      case None => None
      case Some(c) => Some(Block(p, c))
  }

  /** Group 1 of `/```json\s*([\s\S]*?)\s*```/`: the text between the fences with the
      white space at both ends dropped (the leading `\s*` is greedy, the trailing one
      takes whatever the lazy group leaves). */
  function JsonCapture(s: string): (r: Option<string>)
    ensures r.Some? <==> FirstBlock(s).Some?
    ensures r.Some? ==> r.value == Trim(s[FirstBlock(s).value.open + |OpenFence|..FirstBlock(s).value.close])
  {
    match FirstBlock(s)
    case None => None
    case Some(b) => Some(Trim(s[b.open + |OpenFence|..b.close]))
  }

  /** `extractTicketNames`: the names merged from the first block's capture. */
  function ExtractTicketNames(response: string, existing: Names, parse: string -> Option<Names>): Names {
    MergeCaptured(JsonCapture(response), existing, parse)
  }

  /** `{ ...existingNames, ...JSON.parse(capture) }`, or a copy of the existing names when
      there is no capture or it does not parse: every key of either map, the parsed value
      winning. */
  function MergeCaptured(capture: Option<string>, existing: Names, parse: string -> Option<Names>): (r: Names)
    ensures capture.None? ==> r == existing
    ensures capture.Some? && parse(capture.value).None? ==> r == existing
    ensures capture.Some? && parse(capture.value).Some? ==>
              var parsed := parse(capture.value).value;
              && r.Keys == existing.Keys + parsed.Keys
              && (forall k :: k in parsed ==> r[k] == parsed[k])
              && (forall k :: k in existing && k !in parsed ==> r[k] == existing[k])
  {
    match capture
    case None => existing
    case Some(json) =>
      match parse(json)
      case None => existing
      case Some(parsed) => existing + parsed
  }

  /** With no block, or a block that does not parse, the names are a copy of the existing
      ones; otherwise they hold every existing and every parsed key, a parsed value
      replacing an existing one. */
  lemma ExtractedNames(response: string, existing: Names, parse: string -> Option<Names>)
    ensures var r := ExtractTicketNames(response, existing, parse);
            && (FirstBlock(response).None? ==> r == existing)
            && (JsonCapture(response).Some? && parse(JsonCapture(response).value).None? ==> r == existing)
            && (JsonCapture(response).Some? && parse(JsonCapture(response).value).Some? ==>
                  var parsed := parse(JsonCapture(response).value).value;
                  && r.Keys == existing.Keys + parsed.Keys
                  && (forall k :: k in parsed ==> r[k] == parsed[k])
                  && (forall k :: k in existing && k !in parsed ==> r[k] == existing[k]))
  {
    var c := JsonCapture(response);
    assert FirstBlock(response).None? <==> c.None?;
  }

  /** `s.replace(/```json[\s\S]*?```/g, '')`: every block the scan meets is cut out, the
      scan resuming after its closing fence. */
  function StripJsonBlocks(s: string): (r: string)
    ensures |r| <= |s|
    ensures FirstBlock(s).None? ==> r == s
    decreases |s|
  {
    match FirstBlock(s)
    case None => s
    case Some(b) => s[..b.open] + StripJsonBlocks(s[b.close + |Fence|..])
  }

  /** A block preceded by text without backquotes, whose body has none either, is the
      first block. */
  lemma BlockAt(pre: string, body: string, post: string)
    requires '`' !in pre && '`' !in body
    ensures FirstBlock(pre + OpenFence + body + Fence + post)
         == Some(Block(|pre|, |pre| + |OpenFence| + |body|))
  {
    OpenAt(pre, body, post);
    CloseAt(pre, body, post);
    FirstBlockFrom(pre + OpenFence + body + Fence + post, |pre|, |pre| + |OpenFence| + |body|);
  }

  lemma OpenAt(pre: string, body: string, post: string)
    requires '`' !in pre
    ensures IndexOf(pre + OpenFence + body + Fence + post, OpenFence, 0) == Some(|pre|)
  {
    var s := pre + OpenFence + body + Fence + post;
    assert s[0..|pre|] == pre && s[|pre|..|pre| + |OpenFence|] == OpenFence;
    FoundAfter(s, 0, pre, OpenFence);
  }

  lemma CloseAt(pre: string, body: string, post: string)
    requires '`' !in body
    ensures IndexOf(pre + OpenFence + body + Fence + post, Fence, |pre| + |OpenFence|)
         == Some(|pre| + |OpenFence| + |body|)
  {
    var s := pre + OpenFence + body + Fence + post;
    var i := |pre| + |OpenFence|;
    assert s[i..i + |body|] == body && s[i + |body|..i + |body| + |Fence|] == Fence;
    FoundAfter(s, i, body, Fence);
  }

  lemma FirstBlockFrom(s: string, p: nat, c: nat)
    requires IndexOf(s, OpenFence, 0) == Some(p) && IndexOf(s, Fence, p + |OpenFence|) == Some(c)
    ensures FirstBlock(s) == Some(Block(p, c))
  {
  }

  lemma SliceMiddle(a: string, b: string, c: string)
    ensures (a + b + c)[|a|..|a| + |b|] == b
  {
  }

  /** The names come from the first block: its body, trimmed, is what is parsed. */
  lemma FirstBlockParsed(pre: string, body: string, post: string)
    requires '`' !in pre && '`' !in body
    ensures JsonCapture(pre + OpenFence + body + Fence + post) == Some(Trim(body))
  {
    var s := pre + OpenFence + body + Fence + post;
    BlockAt(pre, body, post);
    assert s == (pre + OpenFence) + body + (Fence + post);
    SliceMiddle(pre + OpenFence, body, Fence + post);
  }

  /** A complete block is cut out together with both fences; the scan goes on in the
      text after it. */
  lemma StripCompleteBlock(pre: string, body: string, post: string)
    requires '`' !in pre && '`' !in body
    ensures StripJsonBlocks(pre + OpenFence + body + Fence + post) == pre + StripJsonBlocks(post)
  {
    var s := pre + OpenFence + body + Fence + post;
    BlockAt(pre, body, post);
    assert s[..|pre|] == pre;
    assert s[|pre| + |OpenFence| + |body| + |Fence|..] == post;
  }

  /** Only the first block is parsed: a second block changes nothing in the names. */
  lemma SecondBlockIgnored(pre: string, first: string, mid: string, second: string, post: string,
                           existing: Names, parse: string -> Option<Names>)
    requires '`' !in pre && '`' !in first
    ensures ExtractTicketNames(pre + OpenFence + first + Fence + mid + OpenFence + second + Fence + post, existing, parse)
         == ExtractTicketNames(pre + OpenFence + first + Fence + mid, existing, parse)
  {
    var both := pre + OpenFence + first + Fence + mid + OpenFence + second + Fence + post;
    var one := pre + OpenFence + first + Fence + mid;
    SecondBlockCapture(pre, first, mid, second, post);
    SameCaptureSameNames(both, one, existing, parse);
  }

  /** Both texts capture the first block's body. */
  lemma SecondBlockCapture(pre: string, first: string, mid: string, second: string, post: string)
    requires '`' !in pre && '`' !in first
    ensures JsonCapture(pre + OpenFence + first + Fence + mid + OpenFence + second + Fence + post) == Some(Trim(first))
    ensures JsonCapture(pre + OpenFence + first + Fence + mid) == Some(Trim(first))
  {
    var head := pre + OpenFence + first + Fence;
    var rest := mid + OpenFence + second + Fence + post;
    assert head + mid + OpenFence + second + Fence + post == head + rest;
    FirstBlockParsed(pre, first, rest);
    FirstBlockParsed(pre, first, mid);
  }

  /** The names depend on the response only through the captured block. */
  lemma SameCaptureSameNames(a: string, b: string, existing: Names, parse: string -> Option<Names>)
    requires JsonCapture(a) == JsonCapture(b)
    ensures ExtractTicketNames(a, existing, parse) == ExtractTicketNames(b, existing, parse)
  {
  }

  /** An opening fence with no closing fence after it is left in the report. */
  lemma UnclosedBlockKept(pre: string, body: string)
    requires '`' !in pre && '`' !in body
    ensures StripJsonBlocks(pre + OpenFence + body) == pre + OpenFence + body
  {
    var s := pre + OpenFence + body;
    forall c | |pre| + |OpenFence| <= c < |s| ensures !OccursAt(s, Fence, c) {
      assert s[c] == body[c - |pre| - |OpenFence|];
    }
    forall p | 0 <= p < |pre| ensures !OccursAt(s, OpenFence, p) {
      assert s[p] == pre[p];
    }
  }


  /** The text after the cut block in `StripCanLeaveBlock`: `` `json``` `` holds no block. */
  lemma TailKept()
    ensures StripJsonBlocks(OpenFence[2..] + Fence) == OpenFence[2..] + Fence
  {
    var t := OpenFence[2..] + Fence;
    forall p | 0 <= p ensures !OccursAt(t, OpenFence, p) {
      if p + |OpenFence| <= |t| {
        assert t[p + 1] != '`';
      }
    }
  }

  /** In the text of `StripCanLeaveBlock` the first block is the one after the two
      backquotes. */
  lemma JoinedFirstBlock()
    ensures FirstBlock(OpenFence[..2] + OpenFence + Fence + OpenFence[2..] + Fence) == Some(Block(2, 9))
  {
    var s := OpenFence[..2] + OpenFence + Fence + OpenFence[2..] + Fence;
    assert !OccursAt(s, OpenFence, 0) by { assert s[3] != OpenFence[3]; }
    assert !OccursAt(s, OpenFence, 1) by { assert s[4] != OpenFence[3]; }
    assert s[2..9] == OpenFence;
    IndexOfFirst(s, OpenFence, 0, 2);
    assert s[9..12] == Fence;
    IndexOfFirst(s, Fence, 9, 9);
  }

  /** Cutting a block out can join two halves of a new block: two backquotes, a block
      with an empty body, then `` `json``` `` leave "```json```", so the result of the
      strip is not free of blocks. */
  lemma StripCanLeaveBlock()
    ensures StripJsonBlocks(OpenFence[..2] + OpenFence + Fence + OpenFence[2..] + Fence) == OpenFence + Fence
    ensures FirstBlock(OpenFence + Fence) == Some(Block(0, |OpenFence|))
  {
    var head, tail := OpenFence[..2], OpenFence[2..];
    var s := head + OpenFence + Fence + tail + Fence;
    JoinedFirstBlock();
    assert s[12..] == tail + Fence;
    TailKept();
    assert s[..2] == head;
    assert head + tail == OpenFence;
    assert s[..2] + (tail + Fence) == (head + tail) + Fence;
    BlockAt("", "", "");
    assert [] + OpenFence + [] + Fence + [] == OpenFence + Fence;
  }


  // ---------------------------------------------------------------------
  // the answer and the returned report

  /** A content block of the model's answer. */
  datatype ContentBlock = TextContent(text: string) | OtherContent

  /** `message.content[0].type === 'text' ? message.content[0].text : ''`; an empty
      content list makes the access throw, which is `None`. */
  function ResponseText(content: seq<ContentBlock>): (r: Option<string>)
    ensures r.None? <==> content == []
    ensures r.Some? && content[0].TextContent? ==> r.value == content[0].text
    ensures r.Some? && content[0].OtherContent? ==> r.value == []
  {
    if content == [] then None
    else match content[0]
      case TextContent(t) => Some(t)
      case OtherContent => Some([])
  }

  datatype StandupReport = StandupReport(report: string, newTicketNames: Names)

  /** The value `generateStandupReport` resolves to, from the answer's content: the
      names extracted from the text, and the text with its blocks cut out, trimmed. */
  function GenerateStandupReport(content: seq<ContentBlock>, existing: Names,
                                 parse: string -> Option<Names>): (out: Option<StandupReport>)
    ensures out.None? <==> content == []
    ensures out.Some? ==> out.value.report == Trim(StripJsonBlocks(ResponseText(content).value))
    ensures out.Some? ==> out.value.newTicketNames == ExtractTicketNames(ResponseText(content).value, existing, parse)
    ensures out.Some? ==> var r := out.value.report; r == [] || (!IsSpace(r[0]) && !IsSpace(r[|r| - 1]))
  {
    match ResponseText(content)
    case None => None
    case Some(text) =>
      Some(StandupReport(Trim(StripJsonBlocks(text)), ExtractTicketNames(text, existing, parse)))
  }

  /** The message V8 gives the `TypeError` of reading `type` from a missing first block. */
  const NoContentMessage: string := "Cannot read properties of undefined (reading 'type')"

  /** `await generateStandupReport(...)` as a handler sees it: what the API call threw, the
      `TypeError` of an answer with no content block, or the report and names. */
  function GenerateCall(answer: Outcome<seq<ContentBlock>>, existing: Names,
                        parse: string -> Option<Names>): (r: Outcome<StandupReport>)
    ensures answer.Threw? ==> r == Threw(answer.thrown)
    ensures answer == Done([]) ==> r == Threw(ErrorObject(NoContentMessage))
    ensures answer.Done? && answer.value != [] ==>
              r == Done(GenerateStandupReport(answer.value, existing, parse).value)
  {
    match answer
    case Threw(e) => Threw(e)
    case Done(content) =>
      match GenerateStandupReport(content, existing, parse)
      case None => Threw(ErrorObject(NoContentMessage))
      case Some(out) => Done(out)
  }

  /** The answer the prompt asks for: a report, then one block with the new names. The
      report comes back trimmed without the block; the names are the parsed ones merged
      over the existing ones, or the existing ones when the block does not parse. */
  lemma ReportThenNames(report: string, body: string, existing: Names, parse: string -> Option<Names>)
    requires '`' !in report && '`' !in body
    ensures var out := GenerateStandupReport([TextContent(report + OpenFence + body + Fence)], existing, parse);
            && out.Some?
            && out.value.report == Trim(report)
            && out.value.newTicketNames
               == (match parse(Trim(body)) case Some(parsed) => existing + parsed case None => existing)
  {
    var text := report + OpenFence + body + Fence;
    assert ResponseText([TextContent(text)]) == Some(text);
    LastBlockCapture(report, body);
    LastBlockStripped(report, body);
    assert ExtractTicketNames(text, existing, parse) == MergeCaptured(Some(Trim(body)), existing, parse);
  }

  lemma LastBlockCapture(report: string, body: string)
    requires '`' !in report && '`' !in body
    ensures JsonCapture(report + OpenFence + body + Fence) == Some(Trim(body))
  {
    assert report + OpenFence + body + Fence == report + OpenFence + body + Fence + [];
    FirstBlockParsed(report, body, []);
  }

  lemma LastBlockStripped(report: string, body: string)
    requires '`' !in report && '`' !in body
    ensures StripJsonBlocks(report + OpenFence + body + Fence) == report
  {
    assert report + OpenFence + body + Fence == report + OpenFence + body + Fence + [];
    StripCompleteBlock(report, body, []);
    assert StripJsonBlocks([]) == [];
    assert report + [] == report;
  }

  /** An answer with no block keeps the existing names and is only trimmed. */
  lemma NoBlockAnswer(text: string, existing: Names, parse: string -> Option<Names>)
    requires '`' !in text
    ensures GenerateStandupReport([TextContent(text)], existing, parse)
         == Some(StandupReport(Trim(text), existing))
  {
    NoBackquoteNoBlock(text);
    assert StripJsonBlocks(text) == text;
    assert JsonCapture(text).None?;
  }

  lemma NoBackquoteNoBlock(text: string)
    requires '`' !in text
    ensures FirstBlock(text).None?
  {
    forall p | 0 <= p ensures !OccursAt(text, OpenFence, p) {
      if p + |OpenFence| <= |text| {
        assert text[p..p + |OpenFence|][0] == text[p] != '`';
      }
    }
  }
}

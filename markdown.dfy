/**
 * The channel adapters for the markdown report. Each adapter in the source is a chain
 * of JavaScript `replace` calls; here each regex is a hand-written rewriter:
 *
 *  - the link pattern `\[([^\]]+)\]\(([^)]+)\)` (global) is `ReplaceLinks`, with the
 *    replacement chosen by a `LinkStyle`;
 *  - a multi-line pattern `^prefix(.+)$` or `^prefix` (flags `gm`) is a `LineRule`
 *    applied by `MapLines` to every line (lines end at any JavaScript line terminator);
 *  - `/\n/g` -> `<br>` is `NewlinesToBreaks`.
 *
 * Adapters: `ForSlack` (core generator and the Slack handler's copy), `ForTeams`
 * (Teams report card), `AsHtml` and `AsPlainText` (dashboard clipboard copy).
 */
module Markdown {
  import opened Wrappers
  import opened Text

  // ---------------------------------------------------------------------
  // links

  /** What a link `[text](url)` is replaced by. */
  datatype LinkStyle =
    | UrlOnly   // '$2'
    | TextOnly  // '$1'
    | Anchor    // '<a href="$2">$1</a>'
    | Same      // '[$1]($2)'

  function Render(style: LinkStyle, text: string, url: string): string {
    match style
    case UrlOnly => url
    case TextOnly => text
    case Anchor => "<a href=\"" + url + "\">" + text + "</a>"
    case Same => "[" + text + "](" + url + ")"
  }

  /** The link written out in markdown. */
  function LinkSource(text: string, url: string): string {
    "[" + text + "](" + url + ")"
  }

  datatype LinkMatch = LinkMatch(text: string, url: string, len: nat)

  /** The link pattern tried at the start of `s`. `[^\]]+` can only stop at the first
      `]`, and `[^)]+` at the first `)` after `](`, so the match, when there is one, is
      unique; both runs may contain line breaks. */
  function MatchLink(s: string): (m: Option<LinkMatch>)
    ensures m.Some? ==> 0 < m.value.len <= |s|
    ensures m.Some? ==> s[..m.value.len] == LinkSource(m.value.text, m.value.url)
    ensures m.Some? ==> m.value.text != [] && ']' !in m.value.text
    ensures m.Some? ==> m.value.url != [] && ')' !in m.value.url
  {
    if s == [] || s[0] != '[' then None
    else
      match IndexOf(s, "]", 1)
      case None => None
      case Some(j) =>
        if j == 1 || j + 1 >= |s| || s[j + 1] != '(' then None
        else
          match IndexOf(s, ")", j + 2)
          case None => None
          case Some(k) =>
            if k == j + 2 then None
            else
              LinkParts(s, j, k);
              Some(LinkMatch(s[1..j], s[j + 2..k], k + 1))
  }

  /** Between the opening `[` and the first `]` after it there is no `]`, between `](`
      and the first `)` after it no `)`: the two runs are the link's text and URL. */
  lemma LinkParts(s: string, j: nat, k: nat)
    requires 1 < j && j + 2 < k < |s| && s[0] == '[' && s[j + 1] == '('
    requires OccursAt(s, "]", j) && forall i :: 1 <= i < j ==> !OccursAt(s, "]", i)
    requires OccursAt(s, ")", k) && forall i :: j + 2 <= i < k ==> !OccursAt(s, ")", i)
    ensures ']' !in s[1..j] && ')' !in s[j + 2..k]
    ensures s[..k + 1] == LinkSource(s[1..j], s[j + 2..k])
  {
    var text, url := s[1..j], s[j + 2..k];
    forall i | 0 <= i < |text| ensures text[i] != ']' {
      assert !OccursAt(s, "]", i + 1);
    }
    forall i | 0 <= i < |url| ensures url[i] != ')' {
      assert !OccursAt(s, ")", j + 2 + i);
    }
    assert s[j..j + 1] == "]" && s[k..k + 1] == ")";
  }

  /** `s.replace(/\[([^\]]+)\]\(([^)]+)\)/g, ...)`: scan left to right, replace each
      match and resume after it. */
  function ReplaceLinks(s: string, style: LinkStyle): string
    decreases |s|
  {
    if s == [] then []
    else
      match MatchLink(s)
      case Some(m) => Render(style, m.text, m.url) + ReplaceLinks(s[m.len..], style)
      case None => [s[0]] + ReplaceLinks(s[1..], style)
  }

  /** Text before the first `[` is copied unchanged. */
  lemma {:induction false} ReplaceLinksPrefix(a: string, b: string, style: LinkStyle)
    requires '[' !in a
    ensures ReplaceLinks(a + b, style) == a + ReplaceLinks(b, style)
  {
    if a != [] {
      var s := a + b;
      assert ReplaceLinks(s, style) == [a[0]] + ReplaceLinks(a[1..] + b, style) by {
        assert s[0] == a[0] != '[';
        CopiedChar(s, style);
        assert s[1..] == a[1..] + b;
      }
      ReplaceLinksPrefix(a[1..], b, style);
      assert [a[0]] + (a[1..] + ReplaceLinks(b, style)) == a + ReplaceLinks(b, style) by {
        assert [a[0]] + a[1..] == a;
      }
    } else {
      assert a + b == b;
    }
  }

  /** A character other than `[` starts no link and is copied. */
  lemma CopiedChar(s: string, style: LinkStyle)
    requires s != [] && s[0] != '['
    ensures ReplaceLinks(s, style) == [s[0]] + ReplaceLinks(s[1..], style)
  {
    assert MatchLink(s).None?;
  }

  /** Text without `[` is left unchanged. */
  lemma NoLinkUnchanged(s: string, style: LinkStyle)
    requires '[' !in s
    ensures ReplaceLinks(s, style) == s
  {
    ReplaceLinksPrefix(s, [], style);
    assert s + [] == s;
  }

  /** The pattern matches a well-formed link exactly. */
  lemma MatchLinkSource(text: string, url: string, rest: string)
    requires text != [] && ']' !in text
    requires url != [] && ')' !in url
    ensures MatchLink(LinkSource(text, url) + rest)
         == Some(LinkMatch(text, url, |LinkSource(text, url)|))
  {
    var s := LinkSource(text, url) + rest;
    var j := |text| + 1;
    var k := j + 2 + |url|;
    LinkSourceSlices(text, url, rest);
    MatchLinkAt(s, text, url);
  }

  /** Where the pieces of a link stand in its source. */
  lemma LinkSourceSlices(text: string, url: string, rest: string)
    ensures var s := LinkSource(text, url) + rest;
            var j := |text| + 1;
            var k := j + 2 + |url|;
            k < |s| && s[0] == '[' && s[1..j] == text && s[j..j + 1] == "]"
            && s[j + 1] == '(' && s[j + 2..k] == url && s[k..k + 1] == ")"
  {
  }

  /** The pattern finds a link whose pieces stand where a link's source puts them. */
  lemma MatchLinkAt(s: string, text: string, url: string)
    requires text != [] && ']' !in text
    requires url != [] && ')' !in url
    requires |text| + |url| + 3 < |s| && s[0] == '['
    requires s[1..|text| + 1] == text && s[|text| + 1..|text| + 2] == "]"
    requires s[|text| + 2] == '('
    requires s[|text| + 3..|text| + 3 + |url|] == url
    requires s[|text| + 3 + |url|..|text| + 4 + |url|] == ")"
    ensures MatchLink(s) == Some(LinkMatch(text, url, |text| + |url| + 4))
  {
    var j := |text| + 1;
    var k := j + 2 + |url|;
    FoundAfter(s, 1, text, "]");
    FoundAfter(s, j + 2, url, ")");
  }

  /** A well-formed link is rendered in the chosen style and the scan resumes after it. */
  lemma LinkRendered(text: string, url: string, rest: string, style: LinkStyle)
    requires text != [] && ']' !in text
    requires url != [] && ')' !in url
    ensures ReplaceLinks(LinkSource(text, url) + rest, style)
         == Render(style, text, url) + ReplaceLinks(rest, style)
  {
    var s := LinkSource(text, url) + rest;
    MatchLinkSource(text, url, rest);
    assert s[|LinkSource(text, url)|..] == rest;
  }

  /** One step of the scan at a match: the rendered link, then the rest. */
  lemma MatchedStep(s: string, style: LinkStyle)
    requires MatchLink(s).Some?
    ensures var m := MatchLink(s).value;
            ReplaceLinks(s, style) == Render(style, m.text, m.url) + ReplaceLinks(s[m.len..], style)
  {
  }

  /** One step of the scan where no link starts: the character, then the rest. */
  lemma UnmatchedStep(s: string, style: LinkStyle)
    requires s != [] && MatchLink(s).None?
    ensures ReplaceLinks(s, style) == [s[0]] + ReplaceLinks(s[1..], style)
  {
  }

  /** A text that is one link and nothing more is its rendering. */
  lemma LinkAlone(text: string, url: string, style: LinkStyle)
    requires text != [] && ']' !in text
    requires url != [] && ')' !in url
    ensures ReplaceLinks(LinkSource(text, url), style) == Render(style, text, url)
  {
    assert LinkSource(text, url) == LinkSource(text, url) + [];
    LinkRendered(text, url, [], style);
    assert Render(style, text, url) + [] == Render(style, text, url);
  }

  /** The `Same` style gives every string back: rewriting `[$1]($2)` is the identity. */
  lemma {:induction false} SameStyleIsIdentity(s: string)
    ensures ReplaceLinks(s, Same) == s
    decreases |s|
  {
    if s != [] {
      var n := SameStep(s);
      SameStyleIsIdentity(s[n..]);
      PrefixGlued(s, n, ReplaceLinks(s, Same), ReplaceLinks(s[n..], Same));
    }
  }

  /** A text that is its first `n` characters followed by its remainder is the string. */
  lemma PrefixGlued(s: string, n: nat, whole: string, tail: string)
    requires n <= |s| && whole == s[..n] + tail && tail == s[n..]
    ensures whole == s
  {
    assert s[..n] + s[n..] == s;
  }

  /** One step of the scan in the `Same` style copies the first `n` characters, a link
      or a single character. */
  lemma SameStep(s: string) returns (n: nat)
    requires s != []
    ensures 0 < n <= |s|
    ensures ReplaceLinks(s, Same) == s[..n] + ReplaceLinks(s[n..], Same)
  {
    match MatchLink(s)
    case Some(m) =>
      MatchedStep(s, Same);
      n := m.len;
    case None =>
      UnmatchedStep(s, Same);
      n := 1;
  }

  // ---------------------------------------------------------------------
  // line rules

  /** One multi-line substitution. */
  datatype LineRule =
    | Wrap(prefix: string, open: string, close: string)  // /^prefix(.+)$/gm -> open + '$1' + close
    | Swap(prefix: string, with: string)                 // /^prefix/gm -> with

  /** The rule's own strings hold no line terminator, so it keeps lines apart. */
  predicate RuleKeepsLines(rule: LineRule) {
    match rule
    case Wrap(p, o, c) => NoLineTerminator(p) && NoLineTerminator(o) && NoLineTerminator(c)
    case Swap(p, w) => NoLineTerminator(p) && NoLineTerminator(w)
  }

  /** A rule on one line (a string without line terminator). `(.+)` needs at least one
      character after the prefix. */
  function ApplyRule(rule: LineRule, line: string): string {
    match rule
    case Wrap(p, o, c) =>
      if StartsWith(line, p) && |line| > |p| then o + line[|p|..] + c else line
    case Swap(p, b) =>
      if StartsWith(line, p) then b + line[|p|..] else line
  }

  lemma ApplyRuleKeepsLine(rule: LineRule, line: string)
    requires RuleKeepsLines(rule) && NoLineTerminator(line)
    ensures NoLineTerminator(ApplyRule(rule, line))
  {
  }

  /** Index of the first line terminator. */
  function FirstTerminator(s: string): (r: Option<nat>)
    ensures r.Some? ==> r.value < |s| && IsLineTerminator(s[r.value]) && NoLineTerminator(s[..r.value])
    ensures r.None? ==> NoLineTerminator(s)
  {
    if s == [] then None
    else if IsLineTerminator(s[0]) then Some(0)
    else
      match FirstTerminator(s[1..])
      case None => None
      case Some(i) => Some(i + 1)
  }

  /** The rule applied to every line; terminators are kept as they are. */
  function MapLines(s: string, rule: LineRule): string
    decreases |s|
  {
    match FirstTerminator(s)
    case None => ApplyRule(rule, s)
    case Some(i) => ApplyRule(rule, s[..i]) + [s[i]] + MapLines(s[i + 1..], rule)
  }

  /** `MapLines` works line by line. */
  lemma MapLinesSplit(line: string, t: char, rest: string, rule: LineRule)
    requires NoLineTerminator(line) && IsLineTerminator(t)
    ensures MapLines(line + [t] + rest, rule) == ApplyRule(rule, line) + [t] + MapLines(rest, rule)
  {
    var s := line + [t] + rest;
    FirstTerminatorOf(line, t, rest);
    assert s[..|line|] == line && s[|line| + 1..] == rest;
  }

  lemma MapLinesOneLine(line: string, rule: LineRule)
    requires NoLineTerminator(line)
    ensures MapLines(line, rule) == ApplyRule(rule, line)
  {
  }

  lemma {:induction false} FirstTerminatorOf(line: string, t: char, rest: string)
    requires NoLineTerminator(line) && IsLineTerminator(t)
    ensures FirstTerminator(line + [t] + rest) == Some(|line|)
  {
    if line != [] {
      assert (line + [t] + rest)[1..] == line[1..] + [t] + rest;
      FirstTerminatorOf(line[1..], t, rest);
    }
  }

  /** A sequence of rules, applied to the whole text one after another. */
  function MapLinesAll(s: string, rules: seq<LineRule>): string
    decreases |rules|
  {
    if rules == [] then s else MapLinesAll(MapLines(s, rules[0]), rules[1..])
  }

  /** The same rules on a single line. */
  function ApplyRules(line: string, rules: seq<LineRule>): string
    decreases |rules|
  {
    if rules == [] then line else ApplyRules(ApplyRule(rules[0], line), rules[1..])
  }

  predicate AllKeepLines(rules: seq<LineRule>) {
    forall i :: 0 <= i < |rules| ==> RuleKeepsLines(rules[i])
  }

  lemma {:induction false} ApplyRulesKeepsLine(line: string, rules: seq<LineRule>)
    requires AllKeepLines(rules) && NoLineTerminator(line)
    ensures NoLineTerminator(ApplyRules(line, rules))
    decreases |rules|
  {
    if rules != [] {
      ApplyRuleKeepsLine(rules[0], line);
      ApplyRulesKeepsLine(ApplyRule(rules[0], line), rules[1..]);
    }
  }

  /** A chain of line rules acts on each line separately: the first line comes out as
      the rules applied to it alone, followed by its terminator and the rest. */
  lemma {:induction false} MapLinesAllSplit(line: string, t: char, rest: string, rules: seq<LineRule>)
    requires NoLineTerminator(line) && IsLineTerminator(t) && AllKeepLines(rules)
    ensures MapLinesAll(line + [t] + rest, rules)
         == ApplyRules(line, rules) + [t] + MapLinesAll(rest, rules)
    decreases |rules|
  {
    if rules != [] {
      MapLinesSplit(line, t, rest, rules[0]);
      ApplyRuleKeepsLine(rules[0], line);
      MapLinesAllSplit(ApplyRule(rules[0], line), t, MapLines(rest, rules[0]), rules[1..]);
    }
  }

  lemma {:induction false} MapLinesAllOneLine(line: string, rules: seq<LineRule>)
    requires NoLineTerminator(line) && AllKeepLines(rules)
    ensures MapLinesAll(line, rules) == ApplyRules(line, rules)
    decreases |rules|
  {
    if rules != [] {
      MapLinesOneLine(line, rules[0]);
      ApplyRuleKeepsLine(rules[0], line);
      MapLinesAllOneLine(ApplyRule(rules[0], line), rules[1..]);
    }
  }

  // ---------------------------------------------------------------------
  // newlines

  /** `s.replace(/\n/g, '<br>')`. */
  function NewlinesToBreaks(s: string): (r: string)
    ensures '\n' !in r
  {
    if s == [] then []
    else (if s[0] == '\n' then "<br>" else [s[0]]) + NewlinesToBreaks(s[1..])
  }

  lemma {:induction false} NewlinesToBreaksNoNewline(s: string)
    requires '\n' !in s
    ensures NewlinesToBreaks(s) == s
  {
    if s != [] {
      NewlinesToBreaksNoNewline(s[1..]);
      assert s == [s[0]] + s[1..];
    }
  }

  lemma {:induction false} NewlinesToBreaksSplit(line: string, rest: string)
    requires '\n' !in line
    ensures NewlinesToBreaks(line + "\n" + rest) == line + "<br>" + NewlinesToBreaks(rest)
  {
    if line == [] {
      assert line + "\n" + rest == "\n" + rest;
      assert ("\n" + rest)[1..] == rest;
    } else {
      assert (line + "\n" + rest)[0] == line[0];
      assert (line + "\n" + rest)[1..] == line[1..] + "\n" + rest;
      NewlinesToBreaksSplit(line[1..], rest);
      assert [line[0]] + line[1..] == line;
    }
  }

  // ---------------------------------------------------------------------
  // the four adapters

  const SlackRules: seq<LineRule> := [Wrap("## ", "*", "*"), Wrap("### ", "*", "*"), Swap("- ", "• ")]
  const TeamsRules: seq<LineRule> := [Wrap("## ", "**", "**"), Wrap("### ", "**", "**")]
  const HtmlRules: seq<LineRule> :=
    [Wrap("## ", "<strong>", "</strong>"), Wrap("### ", "<strong>", "</strong>"), Wrap("- ", "• ", "")]
  const PlainRules: seq<LineRule> := [Swap("## ", ""), Swap("### ", ""), Swap("- ", "• ")]

  lemma RuleTablesKeepLines()
    ensures AllKeepLines(SlackRules) && AllKeepLines(TeamsRules)
    ensures AllKeepLines(HtmlRules) && AllKeepLines(PlainRules)
  {
    assert AllKeepLines(SlackRules) && AllKeepLines(TeamsRules) by {
      assert RuleKeepsLines(SlackRules[0]) && RuleKeepsLines(SlackRules[1]) && RuleKeepsLines(SlackRules[2]);
    }
    assert AllKeepLines(HtmlRules) by {
      assert RuleKeepsLines(HtmlRules[0]) && RuleKeepsLines(HtmlRules[1]) && RuleKeepsLines(HtmlRules[2]);
    }
    assert AllKeepLines(PlainRules) by {
      assert RuleKeepsLines(PlainRules[0]) && RuleKeepsLines(PlainRules[1]) && RuleKeepsLines(PlainRules[2]);
    }
  }

  /** `formatReportForSlack`: links to their bare URL, `##`/`###` headings to `*bold*`,
      a line-initial `- ` to `• `. */
  function ForSlack(report: string): string {
    MapLinesAll(ReplaceLinks(report, UrlOnly), SlackRules)
  }

  /** `formatReportForTeams`: headings to `**bold**`, then the link rewrite `[$1]($2)`. */
  function ForTeams(report: string): string {
    ReplaceLinks(MapLinesAll(report, TeamsRules), Same)
  }

  /** `formatReportAsHtml`: links to anchors, headings to `<strong>`, `- X` to `• X`,
      newlines to `<br>`. */
  function AsHtml(report: string): string {
    NewlinesToBreaks(MapLinesAll(ReplaceLinks(report, Anchor), HtmlRules))
  }

  /** The plain-text chain in `copyReport`: links to their text, one `## ` then one `### `
      removed from each line start, a line-initial `- ` to `• `. */
  function AsPlainText(report: string): string {
    MapLinesAll(ReplaceLinks(report, TextOnly), PlainRules)
  }

  // ---------------------------------------------------------------------
  // what each adapter does to a line

  /** A line that differs from `p` at some index below `|p|` does not start with `p`. */
  lemma NotStartsWith(s: string, p: string, i: nat)
    requires i < |p| && i < |s| && s[i] != p[i]
    ensures !StartsWith(s, p)
  {
    if |p| <= |s| {
      assert s[..|p|][i] != p[i];
    }
  }

  lemma WrapFires(p: string, o: string, c: string, x: string)
    requires x != []
    ensures ApplyRule(Wrap(p, o, c), p + x) == o + x + c
  {
    assert (p + x)[..|p|] == p && (p + x)[|p|..] == x;
  }

  lemma SwapFires(p: string, w: string, x: string)
    ensures ApplyRule(Swap(p, w), p + x) == w + x
  {
    assert (p + x)[..|p|] == p && (p + x)[|p|..] == x;
  }

  lemma RuleSkips(rule: LineRule, line: string)
    requires !StartsWith(line, rule.prefix)
    ensures ApplyRule(rule, line) == line
  {
  }

  lemma ApplyTwo(line: string, rules: seq<LineRule>)
    requires |rules| == 2
    ensures ApplyRules(line, rules) == ApplyRule(rules[1], ApplyRule(rules[0], line))
  {
    var a := ApplyRule(rules[0], line);
    assert ApplyRules(line, rules) == ApplyRules(a, rules[1..]);
    assert rules[1..][0] == rules[1] && rules[1..][1..] == [];
    assert ApplyRules(a, rules[1..]) == ApplyRules(ApplyRule(rules[1], a), []);
  }

  lemma ApplyThree(line: string, rules: seq<LineRule>)
    requires |rules| == 3
    ensures ApplyRules(line, rules)
         == ApplyRule(rules[2], ApplyRule(rules[1], ApplyRule(rules[0], line)))
  {
    var a := ApplyRule(rules[0], line);
    assert ApplyRules(line, rules) == ApplyRules(a, rules[1..]);
    ApplyTwo(a, rules[1..]);
  }

  /** No rule of a table fires on a line that starts with none of its prefixes. */
  lemma {:induction false} NoRuleFires(line: string, rules: seq<LineRule>)
    requires forall i :: 0 <= i < |rules| ==> !StartsWith(line, rules[i].prefix)
    ensures ApplyRules(line, rules) == line
    decreases |rules|
  {
    if rules != [] {
      NoRuleFires(line, rules[1..]);
    }
  }

  lemma Regroup(a: string, b: string, c: string, d: string)
    ensures a + b + c + d == a + (b + (c + d))
  {
  }

  /** A marker followed by one line is one line. */
  lemma PrefixedLine(p: string, x: string)
    requires NoLineTerminator(p) && NoLineTerminator(x)
    ensures NoLineTerminator(p + x)
    ensures '[' !in p && '[' !in x ==> '[' !in p + x
  {
    assert forall i :: |p| <= i < |p + x| ==> (p + x)[i] == x[i - |p|];
  }

  /** A line with no `[`: the Slack adapter is its three line rules. */
  lemma SlackOnLine(line: string)
    requires NoLineTerminator(line) && '[' !in line
    ensures ForSlack(line) == ApplyRules(line, SlackRules)
  {
    NoLinkUnchanged(line, UrlOnly);
    RuleTablesKeepLines();
    MapLinesAllOneLine(line, SlackRules);
  }

  /** The Slack adapter rewrites a report line by line: a first line with no `[` comes out
      as the line rules applied to it alone, followed by its terminator and the rest. */
  lemma SlackLineByLine(line: string, t: char, rest: string)
    requires NoLineTerminator(line) && '[' !in line && IsLineTerminator(t)
    ensures ForSlack(line + [t] + rest) == ApplyRules(line, SlackRules) + [t] + ForSlack(rest)
  {
    ReplaceLinksPrefix(line + [t], rest, UrlOnly);
    RuleTablesKeepLines();
    MapLinesAllSplit(line, t, ReplaceLinks(rest, UrlOnly), SlackRules);
  }

  /** The Slack rules on `## X`, `### X` and `- X`. */
  lemma SlackRulesOn(x: string)
    ensures x != [] ==> ApplyRules("## " + x, SlackRules) == "*" + x + "*"
    ensures x != [] ==> ApplyRules("### " + x, SlackRules) == "*" + x + "*"
    ensures ApplyRules("- " + x, SlackRules) == "• " + x
  {
    var b := "*" + x + "*";
    ApplyThree("## " + x, SlackRules);
    ApplyThree("### " + x, SlackRules);
    ApplyThree("- " + x, SlackRules);
    NotStartsWith(b, "### ", 0);
    NotStartsWith(b, "- ", 0);
    if x != [] {
      WrapFires("## ", "*", "*", x);
      WrapFires("### ", "*", "*", x);
    }
    NotStartsWith("### " + x, "## ", 2);
    NotStartsWith("- " + x, "## ", 0);
    NotStartsWith("- " + x, "### ", 0);
    SwapFires("- ", "• ", x);
  }

  /** Slack: `## X` and `### X` become `*X*`; `- X` becomes `• X`. */
  lemma SlackLineRules(x: string)
    requires NoLineTerminator(x) && '[' !in x
    ensures x != [] ==> ForSlack("## " + x) == "*" + x + "*"
    ensures x != [] ==> ForSlack("### " + x) == "*" + x + "*"
    ensures ForSlack("- " + x) == "• " + x
  {
    PrefixedLine("## ", x);
    PrefixedLine("### ", x);
    PrefixedLine("- ", x);
    SlackOnLine("## " + x);
    SlackOnLine("### " + x);
    SlackOnLine("- " + x);
    SlackRulesOn(x);
  }

  /** Slack: a line with no `[` that starts with none of the three prefixes is unchanged. */
  lemma SlackOtherLine(line: string)
    requires NoLineTerminator(line) && '[' !in line
    requires !StartsWith(line, "## ") && !StartsWith(line, "### ") && !StartsWith(line, "- ")
    ensures ForSlack(line) == line
  {
    SlackOnLine(line);
    NoRuleFires(line, SlackRules);
  }

  /** Slack: a ticket line `- [KEY](url) - Name` becomes `• url - Name`. */
  lemma SlackTicketLine(key: string, url: string, name: string)
    requires key != [] && ']' !in key
    requires url != [] && ')' !in url && NoLineTerminator(url)
    requires '[' !in name && NoLineTerminator(name)
    ensures ForSlack("- " + LinkSource(key, url) + " - " + name) == "• " + url + " - " + name
  {
    var tail := " - " + name;
    var x := url + tail;
    PrefixedLine(" - ", name);
    PrefixedLine(url, tail);
    PrefixedLine("- ", x);
    var body := LinkSource(key, url) + tail;
    ReplaceLinksPrefix("- ", body, UrlOnly);
    LinkRendered(key, url, tail, UrlOnly);
    NoLinkUnchanged(tail, UrlOnly);
    assert ReplaceLinks(body, UrlOnly) == x;
    assert ReplaceLinks("- " + body, UrlOnly) == "- " + x;
    RuleTablesKeepLines();
    assert NoLineTerminator("- " + x);
    MapLinesAllOneLine("- " + x, SlackRules);
    SlackRulesOn(x);
    Regroup("- ", LinkSource(key, url), " - ", name);
    Regroup("• ", url, " - ", name);
  }

  /** Slack: a line that is one link becomes its URL. */
  lemma SlackLinkLine(text: string, url: string)
    requires text != [] && ']' !in text
    requires url != [] && ')' !in url && NoLineTerminator(url)
    requires !StartsWith(url, "## ") && !StartsWith(url, "### ") && !StartsWith(url, "- ")
    ensures ForSlack(LinkSource(text, url)) == url
  {
    assert ReplaceLinks(LinkSource(text, url), UrlOnly) == url by {
      LinkAlone(text, url, UrlOnly);
    }
    assert MapLinesAll(url, SlackRules) == url by {
      RuleTablesKeepLines();
      MapLinesAllOneLine(url, SlackRules);
      NoRuleFires(url, SlackRules);
    }
  }

  /** `[b](c)` is one line starting with `[`. */
  lemma LinkSourceOneLine(b: string, c: string)
    requires NoLineTerminator(b) && NoLineTerminator(c)
    ensures NoLineTerminator(LinkSource(b, c)) && LinkSource(b, c)[0] == '['
  {
    assert LinkSource(b, c) == "[" + (b + "](" + c + ")");
    PrefixedLine(b, "](");
    PrefixedLine(b + "](", c);
    PrefixedLine(b + "](" + c, ")");
    PrefixedLine("[", b + "](" + c + ")");
  }

  /** A line that is a link and nothing more starts with none of the rule prefixes. */
  lemma LinkLineUntouched(line: string, rules: seq<LineRule>)
    requires line != [] && line[0] == '['
    requires forall i :: 0 <= i < |rules| ==> rules[i].prefix != [] && rules[i].prefix[0] != '['
    ensures ApplyRules(line, rules) == line
  {
    forall i | 0 <= i < |rules| ensures !StartsWith(line, rules[i].prefix) {
      NotStartsWith(line, rules[i].prefix, 0);
    }
    NoRuleFires(line, rules);
  }

  /** Slack: keeping only the URL is not idempotent: a URL that holds a link, as in
      `[a]([b](c))`, comes out as the link `[b](c)`, which a second pass turns into `c`. */
  lemma SlackNotIdempotent(a: string, b: string, c: string)
    requires a != [] && ']' !in a
    requires b != [] && ']' !in b && ')' !in b && NoLineTerminator(b)
    requires c != [] && ')' !in c && NoLineTerminator(c)
    requires !StartsWith(c, "## ") && !StartsWith(c, "### ") && !StartsWith(c, "- ")
    ensures ForSlack(LinkSource(a, "[" + b + "](" + c) + ")") == LinkSource(b, c)
    ensures ForSlack(LinkSource(b, c)) == c
  {
    SlackOnceIsLink(a, b, c);
    SlackLinkLine(b, c);
  }

  /** One Slack pass over `[a]([b](c))` leaves the link `[b](c)`. */
  lemma SlackOnceIsLink(a: string, b: string, c: string)
    requires a != [] && ']' !in a
    requires ')' !in b && NoLineTerminator(b)
    requires ')' !in c && NoLineTerminator(c)
    ensures ForSlack(LinkSource(a, "[" + b + "](" + c) + ")") == LinkSource(b, c)
  {
    var once := LinkSource(b, c);
    SlackFirstPass(a, b, c);
    assert MapLinesAll(once, SlackRules) == once by {
      RuleTablesKeepLines();
      LinkSourceOneLine(b, c);
      LinkLineKept(once, SlackRules);
    }
  }

  /** The first Slack pass over `[a]([b](c))`: the link's URL is `[b](c`, and the `)`
      after it is copied. */
  lemma SlackFirstPass(a: string, b: string, c: string)
    requires a != [] && ']' !in a
    requires ')' !in b && ')' !in c
    ensures ReplaceLinks(LinkSource(a, "[" + b + "](" + c) + ")", UrlOnly) == LinkSource(b, c)
  {
    var inner := "[" + b + "](" + c;
    assert ')' !in inner;
    LinkRendered(a, inner, ")", UrlOnly);
    NoLinkUnchanged(")", UrlOnly);
    assert inner + ")" == LinkSource(b, c);
  }

  /** A single line that starts with `[` is left alone by rules whose prefixes do not
      start with `[`. */
  lemma LinkLineKept(line: string, rules: seq<LineRule>)
    requires NoLineTerminator(line) && line != [] && line[0] == '[' && AllKeepLines(rules)
    requires forall i :: 0 <= i < |rules| ==> rules[i].prefix != [] && rules[i].prefix[0] != '['
    ensures MapLinesAll(line, rules) == line
  {
    MapLinesAllOneLine(line, rules);
    LinkLineUntouched(line, rules);
  }

  /** Teams: the link rewrite changes nothing, so only the heading rules act. */
  lemma TeamsIgnoresLinks(report: string)
    ensures ForTeams(report) == MapLinesAll(report, TeamsRules)
  {
    SameStyleIsIdentity(MapLinesAll(report, TeamsRules));
  }

  /** Teams: `## X` and `### X` become `**X**`; a line starting with neither is unchanged
      (links included). */
  lemma TeamsLineRules(x: string, line: string)
    requires NoLineTerminator(x) && NoLineTerminator(line)
    ensures x != [] ==> ForTeams("## " + x) == "**" + x + "**"
    ensures x != [] ==> ForTeams("### " + x) == "**" + x + "**"
    ensures !StartsWith(line, "## ") && !StartsWith(line, "### ") ==> ForTeams(line) == line
  {
    RuleTablesKeepLines();
    TeamsIgnoresLinks("## " + x);
    MapLinesAllOneLine("## " + x, TeamsRules);
    ApplyTwo("## " + x, TeamsRules);
    TeamsIgnoresLinks("### " + x);
    MapLinesAllOneLine("### " + x, TeamsRules);
    ApplyTwo("### " + x, TeamsRules);
    NotStartsWith("### " + x, "## ", 2);
    NotStartsWith("**" + x + "**", "### ", 0);
    if x != [] {
      WrapFires("## ", "**", "**", x);
      WrapFires("### ", "**", "**", x);
    }
    TeamsIgnoresLinks(line);
    MapLinesAllOneLine(line, TeamsRules);
    if !StartsWith(line, "## ") && !StartsWith(line, "### ") {
      NoRuleFires(line, TeamsRules);
    }
  }

  /** Teams: the adapter rewrites a report line by line. */
  lemma TeamsLineByLine(line: string, t: char, rest: string)
    requires NoLineTerminator(line) && IsLineTerminator(t)
    ensures ForTeams(line + [t] + rest) == ApplyRules(line, TeamsRules) + [t] + ForTeams(rest)
  {
    RuleTablesKeepLines();
    TeamsIgnoresLinks(line + [t] + rest);
    TeamsIgnoresLinks(rest);
    MapLinesAllSplit(line, t, rest, TeamsRules);
  }

  /** HTML: the result holds no newline. */
  lemma HtmlHasNoNewline(report: string)
    ensures '\n' !in AsHtml(report)
  {
  }

  /** A line with no `[`: the HTML adapter is its three line rules. */
  lemma HtmlOnLine(line: string)
    requires NoLineTerminator(line) && '[' !in line
    ensures AsHtml(line) == ApplyRules(line, HtmlRules)
  {
    NoLinkUnchanged(line, Anchor);
    RuleTablesKeepLines();
    MapLinesAllOneLine(line, HtmlRules);
    ApplyRulesKeepsLine(line, HtmlRules);
    NewlinesToBreaksNoNewline(ApplyRules(line, HtmlRules));
  }

  /** The HTML rules on `## X` and `### X`. */
  lemma HtmlRulesOnHeadings(x: string)
    requires x != []
    ensures ApplyRules("## " + x, HtmlRules) == "<strong>" + x + "</strong>"
    ensures ApplyRules("### " + x, HtmlRules) == "<strong>" + x + "</strong>"
  {
    var b := "<strong>" + x + "</strong>";
    NotStartsWith(b, "### ", 0);
    NotStartsWith(b, "- ", 0);
    ApplyThree("## " + x, HtmlRules);
    WrapFires("## ", "<strong>", "</strong>", x);
    ApplyThree("### " + x, HtmlRules);
    NotStartsWith("### " + x, "## ", 2);
    WrapFires("### ", "<strong>", "</strong>", x);
  }

  /** The HTML rules on `- X`; `(.+)` leaves a bare `- ` alone. */
  lemma HtmlRulesOnBullets(x: string)
    ensures x != [] ==> ApplyRules("- " + x, HtmlRules) == "• " + x
    ensures ApplyRules("- ", HtmlRules) == "- "
  {
    ApplyThree("- " + x, HtmlRules);
    NotStartsWith("- " + x, "## ", 0);
    NotStartsWith("- " + x, "### ", 0);
    if x != [] {
      WrapFires("- ", "• ", "", x);
      assert "• " + x + "" == "• " + x;
    }
    ApplyThree("- ", HtmlRules);
    NotStartsWith("- ", "## ", 0);
    NotStartsWith("- ", "### ", 0);
  }

  /** HTML: `## X` and `### X` become `<strong>X</strong>`; `- X` with X non-empty becomes
      `• X`, while a bare `- ` stays. */
  lemma HtmlLineRules(x: string)
    requires NoLineTerminator(x) && '[' !in x
    ensures x != [] ==> AsHtml("## " + x) == "<strong>" + x + "</strong>"
    ensures x != [] ==> AsHtml("### " + x) == "<strong>" + x + "</strong>"
    ensures x != [] ==> AsHtml("- " + x) == "• " + x
    ensures AsHtml("- ") == "- "
  {
    PrefixedLine("## ", x);
    PrefixedLine("### ", x);
    PrefixedLine("- ", x);
    HtmlOnLine("## " + x);
    HtmlOnLine("### " + x);
    HtmlOnLine("- " + x);
    HtmlOnLine("- ");
    if x != [] {
      HtmlRulesOnHeadings(x);
    }
    HtmlRulesOnBullets(x);
  }

  /** The anchor tag for a link. */
  function AnchorTag(text: string, url: string): string {
    Render(Anchor, text, url)
  }

  lemma AnchorTagOneLine(text: string, url: string)
    requires NoLineTerminator(text) && NoLineTerminator(url)
    ensures NoLineTerminator(AnchorTag(text, url))
    ensures AnchorTag(text, url) != [] && AnchorTag(text, url)[0] == '<'
  {
    PrefixedLine("<a href=\"", url);
    PrefixedLine("<a href=\"" + url, "\">");
    PrefixedLine("<a href=\"" + url + "\">", text);
    PrefixedLine("<a href=\"" + url + "\">" + text, "</a>");
  }

  /** HTML: a link becomes an anchor tag `<a href="url">text</a>`. */
  lemma HtmlLink(text: string, url: string)
    requires text != [] && ']' !in text && NoLineTerminator(text)
    requires url != [] && ')' !in url && NoLineTerminator(url)
    ensures AsHtml(LinkSource(text, url)) == AnchorTag(text, url)
  {
    var a := AnchorTag(text, url);
    assert LinkSource(text, url) == LinkSource(text, url) + "";
    LinkRendered(text, url, "", Anchor);
    assert ReplaceLinks(LinkSource(text, url), Anchor) == a + [] == a;
    RuleTablesKeepLines();
    AnchorTagOneLine(text, url);
    MapLinesAllOneLine(a, HtmlRules);
    NotStartsWith(a, "## ", 0);
    NotStartsWith(a, "### ", 0);
    NotStartsWith(a, "- ", 0);
    NoRuleFires(a, HtmlRules);
    NewlinesToBreaksNoNewline(a);
  }


  /** HTML: the adapter rewrites a report line by line and joins the lines with `<br>`. */
  lemma HtmlLineByLine(line: string, rest: string)
    requires NoLineTerminator(line) && '[' !in line
    ensures AsHtml(line + "\n" + rest) == ApplyRules(line, HtmlRules) + "<br>" + AsHtml(rest)
  {
    ReplaceLinksPrefix(line + "\n", rest, Anchor);
    RuleTablesKeepLines();
    MapLinesAllSplit(line, '\n', ReplaceLinks(rest, Anchor), HtmlRules);
    ApplyRulesKeepsLine(line, HtmlRules);
    NewlinesToBreaksSplit(ApplyRules(line, HtmlRules), MapLinesAll(ReplaceLinks(rest, Anchor), HtmlRules));
  }

  /** A line with no `[`: the plain-text copy is its three line rules. */
  lemma PlainOnLine(line: string)
    requires NoLineTerminator(line) && '[' !in line
    ensures AsPlainText(line) == ApplyRules(line, PlainRules)
  {
    NoLinkUnchanged(line, TextOnly);
    RuleTablesKeepLines();
    MapLinesAllOneLine(line, PlainRules);
  }

  /** The plain-text rules on `## X`, `### X` and `- X`. */
  lemma PlainRulesOn(x: string)
    ensures !StartsWith(x, "### ") && !StartsWith(x, "- ") ==> ApplyRules("## " + x, PlainRules) == x
    ensures !StartsWith(x, "- ") ==> ApplyRules("### " + x, PlainRules) == x
    ensures ApplyRules("- " + x, PlainRules) == "• " + x
  {
    ApplyThree("## " + x, PlainRules);
    ApplyThree("### " + x, PlainRules);
    ApplyThree("- " + x, PlainRules);
    SwapFires("## ", "", x);
    assert "" + x == x;
    SwapFires("### ", "", x);
    SwapFires("- ", "• ", x);
    NotStartsWith("### " + x, "## ", 2);
    NotStartsWith("- " + x, "## ", 0);
    NotStartsWith("- " + x, "### ", 0);
  }

  /** Plain text: `## X` and `### X` lose their marker, `- X` becomes `• X`. */
  lemma PlainLineRules(x: string)
    requires NoLineTerminator(x) && '[' !in x
    ensures !StartsWith(x, "### ") && !StartsWith(x, "- ") ==> AsPlainText("## " + x) == x
    ensures !StartsWith(x, "- ") ==> AsPlainText("### " + x) == x
    ensures AsPlainText("- " + x) == "• " + x
  {
    PrefixedLine("## ", x);
    PrefixedLine("### ", x);
    PrefixedLine("- ", x);
    PlainOnLine("## " + x);
    PlainOnLine("### " + x);
    PlainOnLine("- " + x);
    PlainRulesOn(x);
  }

  /** Plain text: a ticket line `- [KEY](url) - Name` becomes `• KEY - Name`. */
  lemma PlainTicketLine(key: string, url: string, name: string)
    requires key != [] && ']' !in key && NoLineTerminator(key)
    requires url != [] && ')' !in url
    requires '[' !in name && NoLineTerminator(name)
    ensures AsPlainText("- " + LinkSource(key, url) + " - " + name) == "• " + key + " - " + name
  {
    var tail := " - " + name;
    var x := key + tail;
    PrefixedLine(" - ", name);
    PrefixedLine(key, tail);
    PrefixedLine("- ", x);
    var body := LinkSource(key, url) + tail;
    ReplaceLinksPrefix("- ", body, TextOnly);
    LinkRendered(key, url, tail, TextOnly);
    NoLinkUnchanged(tail, TextOnly);
    assert ReplaceLinks(body, TextOnly) == x;
    assert ReplaceLinks("- " + body, TextOnly) == "- " + x;
    RuleTablesKeepLines();
    assert NoLineTerminator("- " + x);
    MapLinesAllOneLine("- " + x, PlainRules);
    PlainRulesOn(x);
    Regroup("- ", LinkSource(key, url), " - ", name);
    Regroup("• ", key, " - ", name);
  }

  /** Plain text: a line that is one link becomes its text. */
  lemma PlainLinkLine(text: string, url: string)
    requires text != [] && ']' !in text && NoLineTerminator(text)
    requires url != [] && ')' !in url
    requires !StartsWith(text, "## ") && !StartsWith(text, "### ") && !StartsWith(text, "- ")
    ensures AsPlainText(LinkSource(text, url)) == text
  {
    assert ReplaceLinks(LinkSource(text, url), TextOnly) == text by {
      LinkAlone(text, url, TextOnly);
    }
    assert MapLinesAll(text, PlainRules) == text by {
      RuleTablesKeepLines();
      MapLinesAllOneLine(text, PlainRules);
      NoRuleFires(text, PlainRules);
    }
  }

  /** Plain text: keeping only the link text is not idempotent: in `[[a](u)](v)` the
      pattern matches `[[a](u)`, which leaves the link `[a](v)`, which a second pass turns
      into `a`. */
  lemma PlainTextNotIdempotent(a: string, u: string, v: string)
    requires a != [] && ']' !in a && NoLineTerminator(a)
    requires u != [] && ')' !in u
    requires v != [] && ')' !in v && '[' !in v && NoLineTerminator(v)
    requires !StartsWith(a, "## ") && !StartsWith(a, "### ") && !StartsWith(a, "- ")
    ensures AsPlainText(LinkSource("[" + a, u) + "](" + v + ")") == LinkSource(a, v)
    ensures AsPlainText(LinkSource(a, v)) == a
  {
    var once := LinkSource(a, v);
    PlainFirstPass(a, u, v);
    assert MapLinesAll(once, PlainRules) == once by {
      RuleTablesKeepLines();
      LinkSourceOneLine(a, v);
      LinkLineKept(once, PlainRules);
    }
    PlainLinkLine(a, v);
  }

  /** The first plain-text pass over `[[a](u)](v)`: the link `[[a](u)` gives its text
      `[a`, and the rest is copied. */
  lemma PlainFirstPass(a: string, u: string, v: string)
    requires ']' !in a
    requires u != [] && ')' !in u
    requires '[' !in v
    ensures ReplaceLinks(LinkSource("[" + a, u) + "](" + v + ")", TextOnly) == LinkSource(a, v)
  {
    var text := "[" + a;
    var tail := "](" + (v + ")");
    Regroup(LinkSource(text, u), "](", v, ")");
    LinkRendered(text, u, tail, TextOnly);
    NoLinkUnchanged(tail, TextOnly);
    Regroup(text, "](", v, ")");
    assert text + tail == LinkSource(a, v);
  }
}

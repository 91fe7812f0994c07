/**
 * The dashboard's request to `POST /api/generate`: nothing is sent without a user id
 * and a selected project; the selected board and the days to look back, both held as
 * strings by the page, are turned into numbers with `Number` and the board is left
 * out of the body when none is selected.
 *
 * The clipboard transforms of the same page (`formatReportAsHtml` and the plain-text
 * chain) are `Markdown.AsHtml` and `Markdown.AsPlainText`.
 */
module Dashboard {
  import opened Wrappers
  import opened Text
  import opened Calls
  import opened JiraClient
  import opened Generate
  import opened WebGenerate

  predicate AllDigits(s: string) {
    forall i :: 0 <= i < |s| ==> IsDigit(s[i])
  }

  /** `Number(s)` on the strings the page holds: white space around the number is
      ignored, an empty string is 0, and an optionally signed run of decimal digits is
      its value; `None` stands for `NaN`. */
  function NumberOf(s: string): (r: Option<int>)
    ensures Trim(s) == [] ==> r == Some(0)
    ensures Trim(s) != [] && AllDigits(Trim(s)) ==> r == Some(DigitsValue(Trim(s)))
    ensures r.Some? && Trim(s) != [] ==> exists i :: 0 <= i < |Trim(s)| && IsDigit(Trim(s)[i])
  {
    var t := Trim(s);
    if t == [] then Some(0)
    else
      var body := if t[0] == '-' || t[0] == '+' then t[1..] else t;
      if body == [] || !AllDigits(body) then None
      else
        assert IsDigit(t[|t| - |body|]);
        Some(if t[0] == '-' then -DigitsValue(body) else DigitsValue(body))
  }

  /** What `JSON.stringify` makes of a number: `NaN` is written as `null`. */
  function AsField(n: Option<int>): (f: Field<int>)
    ensures f != Field.Absent
    ensures n.Some? <==> f.Value?
    ensures n.Some? ==> f.v == n.value
  {
    match n
    case None => Null
    case Some(v) => Value(v)
  }

  /** The body `generateReport` posts, or `None` when it returns before posting. */
  function GenerateRequest(userId: Option<string>, selectedProject: Option<string>,
                           selectedBoard: Option<string>, daysBack: string): (r: Option<RequestBody>)
    ensures r.None? <==> !Given(userId) || !Given(selectedProject)
    ensures r.Some? ==> r.value.userId == userId && r.value.projectKey == selectedProject
    ensures r.Some? ==> (r.value.boardId.Absent? <==> !Given(selectedBoard))
    ensures r.Some? && Given(selectedBoard) ==> r.value.boardId == AsField(NumberOf(selectedBoard.value))
    ensures r.Some? ==> r.value.daysBack == AsField(NumberOf(daysBack))
  {
    if !Given(userId) || !Given(selectedProject) then None
    else
      var boardId := if Given(selectedBoard) then AsField(NumberOf(selectedBoard.value)) else Field.Absent;
      Some(RequestBody(userId, selectedProject, boardId, AsField(NumberOf(daysBack))))
  }

  // ---------------------------------------------------------------------
  // board ids written as strings

  function DigitChar(d: nat): (c: char)
    requires d < 10
    ensures IsDigit(c) && c as int - '0' as int == d
  {
    ('0' as int + d) as char
  }

  /** `String(n)` for a natural number: its decimal digits, without leading zeros. */
  function NatString(n: nat): (s: string)
    ensures s != [] && AllDigits(s)
  {
    if n < 10 then [DigitChar(n)] else NatString(n / 10) + [DigitChar(n % 10)]
  }

  /** Reading back the digits of `String(n)` gives `n`. */
  lemma {:induction false} NatStringValue(n: nat)
    ensures DigitsValue(NatString(n)) == n
  {
    var s := NatString(n);
    if n >= 10 {
      assert s[..|s| - 1] == NatString(n / 10);
      NatStringValue(n / 10);
    } else {
      assert s[..|s| - 1] == [];
    }
  }

  /** A string of digits is its own trimmed form. */
  lemma TrimDigits(s: string)
    requires s != [] && AllDigits(s)
    ensures Trim(s) == s
  {
    assert !IsSpace(s[0]) && !IsSpace(s[|s| - 1]);
  }

  /** `Number(String(n)) == n`: the board id the page stored as a string reaches the
      route as the same number. */
  lemma NumberOfNatString(n: nat)
    ensures NumberOf(NatString(n)) == Some(n)
  {
    var s := NatString(n);
    TrimDigits(s);
    assert s[0] != '-' && s[0] != '+' by { assert IsDigit(s[0]); }
    NatStringValue(n);
  }

  // ---------------------------------------------------------------------
  // the request as the route reads it

  /** With a board chosen from the list (held as `String(board.id)`) and the default
      seven days, the route receives the board's id and 7, and looks the board's name up
      exactly when its id is not 0. */
  lemma SelectedBoardRequest(userId: string, project: string, board: AgileBoard)
    requires userId != [] && project != [] && board.id >= 0
    ensures var r := GenerateRequest(Some(userId), Some(project), Some(NatString(board.id)), "7");
            && r == Some(RequestBody(Some(userId), Some(project), Value(board.id), Value(7)))
            && (TruthyField(r.value.boardId) <==> board.id != 0)
  {
    NumberOfNatString(board.id);
    SevenDays();
    RequestOfNumbers(userId, project, NatString(board.id), "7", board.id, 7);
  }

  /** A body whose board and days both read as numbers carries those numbers. */
  lemma RequestOfNumbers(userId: string, project: string, board: string, daysBack: string, b: int, d: int)
    requires userId != [] && project != [] && board != []
    requires NumberOf(board) == Some(b) && NumberOf(daysBack) == Some(d)
    ensures GenerateRequest(Some(userId), Some(project), Some(board), daysBack)
         == Some(RequestBody(Some(userId), Some(project), Value(b), Value(d)))
  {
  }

  /** The page's default `daysBack` of `'7'` is sent as 7. */
  lemma SevenDays()
    ensures NumberOf("7") == Some(7)
  {
    NumberOfNatString(7);
    assert NatString(7) == "7";
  }

  /** With no board selected the body has no `boardId`, and the route never fetches the
      board list. */
  lemma NoBoardRequest(userId: string, project: string, daysBack: string)
    requires userId != [] && project != []
    ensures var r := GenerateRequest(Some(userId), Some(project), None, daysBack);
            r.Some? && r.value.boardId == Field.Absent && !TruthyField(r.value.boardId)
  {
  }

  /** Every body the page posts gets past the route's validation: its first call reads the
      user's Jira configuration. */
  lemma PostedBodyIsValid(userId: Option<string>, selectedProject: Option<string>, selectedBoard: Option<string>,
                          daysBack: string, calls: GenerateCalls, parse: string -> Option<Names>)
    requires GenerateRequest(userId, selectedProject, selectedBoard, daysBack).Some?
    requires calls.body == Done(GenerateRequest(userId, selectedProject, selectedBoard, daysBack).value)
    ensures var r := HandleGenerate(calls, parse);
            r.steps != [] && r.steps[0] == ReadConfig(userId.value)
  {
    ValidationFirst(calls, parse);
  }
}

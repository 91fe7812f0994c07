/**
 * The JavaScript string operations the modelled code relies on, written out
 * over `seq<char>`: whitespace trimming, `indexOf`, `includes`, `startsWith`,
 * the first-occurrence `replace(str, '')`, `split(c)` / `join(c)`,
 * `toLowerCase` and `parseInt(s, 10)`.
 */
module Text {
  import opened Wrappers

  /** The characters JavaScript's `\s` class and `String.prototype.trim` treat
      as white space: WhiteSpace and LineTerminator code points. */
  predicate IsSpace(c: char) {
    c == '\t' || c == '\n' || c == '\U{000B}' || c == '\U{000C}' || c == '\r' || c == ' '
    || c == '\U{00A0}' || c == '\U{1680}' || ('\U{2000}' <= c <= '\U{200A}')
    || c == '\U{2028}' || c == '\U{2029}' || c == '\U{202F}' || c == '\U{205F}'
    || c == '\U{3000}' || c == '\U{FEFF}'
  }

  /** The characters that end a line for `^`, `$` and `.` in a JavaScript regex. */
  predicate IsLineTerminator(c: char) {
    c == '\n' || c == '\r' || c == '\U{2028}' || c == '\U{2029}'
  }

  predicate NoLineTerminator(s: string) {
    forall i :: 0 <= i < |s| ==> !IsLineTerminator(s[i])
  }

  predicate IsDigit(c: char) {
    '0' <= c <= '9'
  }

  // ---------------------------------------------------------------------
  // trim

  function TrimStart(s: string): (r: string)
    ensures |r| <= |s| && r == s[|s| - |r|..]
    ensures r == [] || !IsSpace(r[0])
    ensures forall i :: 0 <= i < |s| - |r| ==> IsSpace(s[i])
  {
    if s != [] && IsSpace(s[0]) then TrimStart(s[1..]) else s
  }

  function TrimEnd(s: string): (r: string)
    ensures |r| <= |s| && r == s[..|r|]
    ensures r == [] || !IsSpace(r[|r| - 1])
    ensures forall i :: |r| <= i < |s| ==> IsSpace(s[i])
  {
    if s != [] && IsSpace(s[|s| - 1]) then TrimEnd(s[..|s| - 1]) else s
  }

  /** `s.trim()`: the result is the middle of `s` with no white space at either end,
      and only white space was removed. */
  function Trim(s: string): (r: string)
    ensures r == [] || (!IsSpace(r[0]) && !IsSpace(r[|r| - 1]))
    ensures OccursAt(s, r, |s| - |TrimStart(s)|)
  {
    TrimParts(s);
    TrimEnd(TrimStart(s))
  }

  /** The trimmed text starts with the first character `TrimStart` kept, and sits in `s`
      where `TrimStart`'s result begins. */
  lemma TrimParts(s: string)
    ensures var t := TrimStart(s);
            var r := TrimEnd(t);
            && (r != [] ==> r[0] == t[0])
            && OccursAt(s, r, |s| - |t|)
  {
    var t := TrimStart(s);
    var r := TrimEnd(t);
    assert s[|s| - |t|..][..|r|] == r;
  }

  lemma TrimOfTrimmed(s: string)
    requires s == [] || (!IsSpace(s[0]) && !IsSpace(s[|s| - 1]))
    ensures Trim(s) == s
  {
  }

  lemma {:induction false} TrimStartAppend(w: string, s: string)
    requires forall i :: 0 <= i < |w| ==> IsSpace(w[i])
    ensures TrimStart(w + s) == TrimStart(s)
  {
    if w == [] {
      assert w + s == s;
    } else {
      assert (w + s)[0] == w[0];
      assert (w + s)[1..] == w[1..] + s;
      TrimStartAppend(w[1..], s);
    }
  }

  /** A string that is present and not empty: what `if (s)` accepts of a string that
      may be missing. */
  predicate Given(s: Option<string>) {
    s.Some? && s.value != []
  }

  /** `o || d` on an optional string: a missing or empty string gives `d`. */
  function OrElse(o: Option<string>, d: string): (r: string)
    ensures o.Some? && o.value != [] ==> r == o.value
    ensures o.None? || o.value == [] ==> r == d
  {
    if o.Some? && o.value != [] then o.value else d
  }

  /** `o || null` on an optional string: a missing or empty string gives `null`. */
  function OrNull(o: Option<string>): (r: Option<string>)
    ensures r.Some? <==> o.Some? && o.value != []
    ensures r.Some? ==> r.value == o.value
  {
    if o.Some? && o.value != [] then o else None
  }

  // ---------------------------------------------------------------------
  // searching

  /** `pat` occurs in `s` starting at index `i`. */
  predicate OccursAt(s: string, pat: string, i: int) {
    0 <= i && i + |pat| <= |s| && s[i..i + |pat|] == pat
  }

  /** `s.indexOf(pat, from)`, for `from <= |s|`: the first occurrence at or after `from`. */
  function IndexOf(s: string, pat: string, from: nat): (r: Option<nat>)
    decreases |s| - from
    ensures r.Some? ==> from <= r.value && OccursAt(s, pat, r.value)
    ensures r.Some? ==> forall j :: from <= j < r.value ==> !OccursAt(s, pat, j)
    ensures r.None? ==> forall j :: from <= j ==> !OccursAt(s, pat, j)
  {
    if from + |pat| > |s| then None
    else if OccursAt(s, pat, from) then Some(from)
    else IndexOf(s, pat, from + 1)
  }

  /** The first occurrence at or after `from` is the one `IndexOf` finds. */
  lemma {:induction false} IndexOfFirst(s: string, pat: string, from: nat, i: nat)
    requires from <= i && OccursAt(s, pat, i)
    requires forall j :: from <= j < i ==> !OccursAt(s, pat, j)
    ensures IndexOf(s, pat, from) == Some(i)
    decreases i - from
  {
    if from < i {
      IndexOfFirst(s, pat, from + 1, i);
    }
  }

  /** Searching from `from`, a pattern whose first character does not occur in the
      `pre` that follows `from` is found right after `pre`. */
  lemma FoundAfter(s: string, from: nat, pre: string, pat: string)
    requires pat != [] && pat[0] !in pre
    requires from + |pre| + |pat| <= |s|
    requires s[from..from + |pre|] == pre && s[from + |pre|..from + |pre| + |pat|] == pat
    ensures IndexOf(s, pat, from) == Some(from + |pre|)
  {
    var i := from + |pre|;
    forall j | from <= j < i ensures !OccursAt(s, pat, j) {
      assert s[j] == pre[j - from];
    }
    IndexOfFirst(s, pat, from, i);
  }

  /** `s.includes(pat)`. */
  predicate Contains(s: string, pat: string) {
    IndexOf(s, pat, 0).Some?
  }

  lemma ContainsIff(s: string, pat: string)
    ensures Contains(s, pat) <==> exists j :: OccursAt(s, pat, j)
  {
  }

  lemma ContainsSelf(pre: string, pat: string, post: string)
    ensures Contains(pre + pat + post, pat)
  {
    assert OccursAt(pre + pat + post, pat, |pre|);
  }

  /** `s.startsWith(p)`. */
  predicate StartsWith(s: string, p: string) {
    |p| <= |s| && s[..|p|] == p
  }

  /** `s.replace(pat, '')` with a string pattern: only the first occurrence is removed
      (an empty pattern matches at 0 and removes nothing). */
  function RemoveFirst(s: string, pat: string): (r: string)
    ensures IndexOf(s, pat, 0).None? ==> r == s
    ensures IndexOf(s, pat, 0).Some? ==>
              var i := IndexOf(s, pat, 0).value; r == s[..i] + s[i + |pat|..]
  {
    match IndexOf(s, pat, 0)
    case None => s
    case Some(i) => s[..i] + s[i + |pat|..]
  }

  // ---------------------------------------------------------------------
  // split and join on one character

  /** `s.split(c)` for a one-character separator: never empty; no part contains `c`. */
  function Split(s: string, c: char): (parts: seq<string>)
    ensures |parts| >= 1
    ensures forall i :: 0 <= i < |parts| ==> c !in parts[i]
  {
    if s == [] then [[]]
    else
      var rest := Split(s[1..], c);
      if s[0] == c then [[]] + rest else [[s[0]] + rest[0]] + rest[1..]
  }

  /** `parts.join(c)`; the join of no parts is the empty string. */
  function Join(parts: seq<string>, c: char): string {
    if |parts| == 0 then []
    else if |parts| == 1 then parts[0]
    else parts[0] + [c] + Join(parts[1..], c)
  }

  /** Splitting and joining again on the same character gives the string back. */
  lemma {:induction false} JoinSplit(s: string, c: char)
    ensures Join(Split(s, c), c) == s
  {
    if s != [] {
      var rest := Split(s[1..], c);
      JoinSplit(s[1..], c);
      if s[0] == c {
        assert Split(s, c) == [[]] + rest;
      } else {
        assert Split(s, c)[1..] == rest[1..];
        if |rest| == 1 {
        } else {
          assert rest == [rest[0]] + rest[1..];
          assert Join(rest, c) == rest[0] + [c] + Join(rest[1..], c);
        }
      }
    }
  }

  /** A separator-free head splits off as one part. */
  lemma {:induction false} SplitAfterHead(a: string, c: char, b: string)
    requires c !in a
    ensures Split(a + [c] + b, c) == [a] + Split(b, c)
  {
    if a == [] {
      assert a + [c] + b == [c] + b;
      assert ([c] + b)[1..] == b;
    } else {
      assert (a + [c] + b)[1..] == a[1..] + [c] + b;
      SplitAfterHead(a[1..], c, b);
      assert [a[0]] + a[1..] == a;
    }
  }

  // ---------------------------------------------------------------------
  // case and numbers

  function LowerChar(ch: char): char {
    if 'A' <= ch <= 'Z' then (ch as int + 32) as char else ch
  }

  /** `s.toLowerCase()` on the ASCII letters. */
  function ToLower(s: string): (r: string)
    ensures |r| == |s|
    ensures forall i :: 0 <= i < |s| ==> r[i] == LowerChar(s[i])
  {
    if s == [] then [] else [LowerChar(s[0])] + ToLower(s[1..])
  }

  /** The number written by a run of decimal digits. */
  function DigitsValue(ds: string): (n: int)
    requires forall i :: 0 <= i < |ds| ==> IsDigit(ds[i])
    ensures n >= 0
  {
    if ds == [] then 0
    else
      var d := ds[|ds| - 1] as int - '0' as int;
      assert IsDigit(ds[|ds| - 1]);
      10 * DigitsValue(ds[..|ds| - 1]) + d
  }

  /** The longest run of decimal digits at the start of `s`. */
  function LeadingDigits(s: string): (ds: string)
    ensures StartsWith(s, ds)
    ensures forall i :: 0 <= i < |ds| ==> IsDigit(ds[i])
    ensures |ds| == |s| || !IsDigit(s[|ds|])
  {
    if s != [] && IsDigit(s[0]) then [s[0]] + LeadingDigits(s[1..]) else []
  }

  /** `parseInt(s, 10)`: leading white space, an optional sign, then the longest run of
      digits; `None` stands for `NaN` (no digit). */
  function ParseInt(s: string): (r: Option<int>)
  {
    var t := TrimStart(s);
    var negative := t != [] && t[0] == '-';
    var body := if t != [] && (t[0] == '-' || t[0] == '+') then t[1..] else t;
    var ds := LeadingDigits(body);
    if ds == [] then None
    else Some(if negative then -DigitsValue(ds) else DigitsValue(ds))
  }

  lemma {:induction false} LeadingDigitsOfDigits(ds: string, rest: string)
    requires forall i :: 0 <= i < |ds| ==> IsDigit(ds[i])
    requires rest == [] || !IsDigit(rest[0])
    ensures LeadingDigits(ds + rest) == ds
  {
    if ds != [] {
      assert (ds + rest)[1..] == ds[1..] + rest;
      LeadingDigitsOfDigits(ds[1..], rest);
    } else {
      assert ds + rest == rest;
    }
  }

  /** A string of decimal digits (an id as Jira issues it) parses to its value;
      anything after the digits is ignored. */
  lemma ParseIntOfDigits(ds: string, rest: string)
    requires ds != [] && forall i :: 0 <= i < |ds| ==> IsDigit(ds[i])
    requires rest == [] || !IsDigit(rest[0])
    ensures ParseInt(ds + rest) == Some(DigitsValue(ds))
  {
    var s := ds + rest;
    assert IsDigit(s[0]) by { assert s[0] == ds[0]; }
    LeadingDigitsOfDigits(ds, rest);
    ParseIntUnsigned(s);
  }

  /** Text that starts with a digit parses to the value of its leading digits. */
  lemma ParseIntUnsigned(s: string)
    requires s != [] && IsDigit(s[0])
    ensures ParseInt(s) == Some(DigitsValue(LeadingDigits(s)))
  {
    assert TrimStart(s) == s by { assert !IsSpace(s[0]); }
  }
}

/**
 * `DiscoveryEngine` of the minimal flows: six seeded questions for the Slack summarizer
 * problem, otherwise the question lines of the model's reply (bullets and numbering removed),
 * at most six, with four defaults when the reply gives none.
 */
module CoreDiscovery {
  import opened Wrappers
  import opened Strs

  // ---------------------------------------------------------------------------
  // The seed pattern `slack\s+summarizer`, case-insensitive

  /** The end of the run of characters satisfying `p` that starts at `j`. */
  function RunEnd(s: string, j: nat, p: char -> bool): (k: nat)
    requires j <= |s|
    ensures j <= k <= |s|
    ensures forall m :: j <= m < k ==> p(s[m])
    ensures k == |s| || !p(s[k])
    decreases |s| - j
  {
    if j < |s| && p(s[j]) then RunEnd(s, j + 1, p) else j
  }

  /** The pattern found at `i` of the lower-cased text, taking the whole whitespace run. */
  predicate SlackMatchAt(l: string, i: nat) {
    OccursAt(l, "slack", i) && RunEnd(l, i + 5, IsSpace) > i + 5 && OccursAt(l, "summarizer", RunEnd(l, i + 5, IsSpace))
  }

  /** The regular expression's own reading: "slack", one or more whitespace characters, then
      "summarizer". */
  predicate PatternAt(l: string, i: nat) {
    OccursAt(l, "slack", i) &&
    exists k :: i + 5 < k <= |l| && (forall m :: i + 5 <= m < k ==> IsSpace(l[m])) && OccursAt(l, "summarizer", k)
  }

  /** Taking the whole whitespace run loses no match: "summarizer" starts with a letter, so
      the run cannot end anywhere else. */
  lemma SlackMatchIsPattern(l: string, i: nat)
    ensures SlackMatchAt(l, i) <==> PatternAt(l, i)
  {
    if OccursAt(l, "slack", i) {
      var e := RunEnd(l, i + 5, IsSpace);
      if SlackMatchAt(l, i) {
        assert i + 5 < e <= |l| && (forall m :: i + 5 <= m < e ==> IsSpace(l[m])) && OccursAt(l, "summarizer", e);
      }
      if PatternAt(l, i) {
        var k :| i + 5 < k <= |l| && (forall m :: i + 5 <= m < k ==> IsSpace(l[m])) && OccursAt(l, "summarizer", k);
        assert l[k] == "summarizer"[0] == 's';
        assert e >= k;
        assert !IsSpace(l[k]);
        assert e == k;
      }
    }
  }

  /** `SLACK_RE.search(problem)`: the pattern occurs somewhere, ignoring case. */
  predicate MentionsSlackSummarizer(problem: string) {
    exists i :: 0 <= i <= |problem| && SlackMatchAt(Lower(problem), i)
  }

  const SeededQuestions: seq<string> := [
    "Which workspace and channels are in scope?",
    "What date range or period should we summarize?",
    "Any privacy or PII constraints to respect?",
    "Where should summaries be delivered (Slack/Drive/GitHub)?",
    "Preferred summary granularity (daily/weekly/incident)?",
    "Who are the target readers and decisions?"
  ]

  const DefaultQuestions: seq<string> := [
    "Who are the primary users?",
    "Top 3 success criteria?",
    "Key constraints or integrations?",
    "Expected timeline?"
  ]

  /** `_seeded_questions`: the six seeded questions on a match, none otherwise. */
  function SeededQuestionsFor(problem: string): (qs: seq<string>)
    ensures MentionsSlackSummarizer(problem) ==> qs == SeededQuestions && |qs| == 6
    ensures !MentionsSlackSummarizer(problem) ==> qs == []
  {
    if MentionsSlackSummarizer(problem) then SeededQuestions else []
  }

  // ---------------------------------------------------------------------------
  // Lines of the reply

  /** The line boundaries of `str.splitlines`. */
  predicate IsLineBoundary(c: char) {
    c == '\n' || c == '\r' || c as int == 0x0b || c as int == 0x0c || c as int == 0x1c || c as int == 0x1d ||
    c as int == 0x1e || c as int == 0x85 || c as int == 0x2028 || c as int == 0x2029
  }

  /** The end of the line that starts at `j`: the next boundary, or the end of the text. */
  function LineEnd(s: string, j: nat): (k: nat)
    requires j <= |s|
    ensures j <= k <= |s|
    ensures forall m :: j <= m < k ==> !IsLineBoundary(s[m])
    ensures k == |s| || IsLineBoundary(s[k])
    decreases |s| - j
  {
    if j < |s| && !IsLineBoundary(s[j]) then LineEnd(s, j + 1) else j
  }

  /** `text.splitlines()`: "\r\n" is one boundary, and a final boundary opens no extra line. */
  function SplitLines(s: string): (r: seq<string>)
    ensures s == [] <==> r == []
    decreases |s|
  {
    if s == [] then []
    else
      var k := LineEnd(s, 0);
      if k == |s| then [s]
      else
        var next := if s[k] == '\r' && k + 1 < |s| && s[k + 1] == '\n' then k + 2 else k + 1;
        [s[..k]] + SplitLines(s[next..])
  }

  /** `sep.join(lines)` */
  function Join(lines: seq<string>, sep: char): string {
    if lines == [] then ""
    else if |lines| == 1 then lines[0]
    else lines[0] + [sep] + Join(lines[1..], sep)
  }

  /** A text whose first line ends at a "\n" splits into that line and the lines after it. */
  lemma SplitLinesAtNewline(s: string, k: nat)
    requires k < |s| && k == LineEnd(s, 0) && s[k] == '\n'
    ensures SplitLines(s) == [s[..k]] + SplitLines(s[k + 1..])
  {
  }

  /** Joining a line in front of a non-empty list puts one separator between them. */
  lemma JoinCons(line: string, lines: seq<string>, sep: char)
    requires lines != []
    ensures Join([line] + lines, sep) == line + [sep] + Join(lines, sep)
  {
    assert ([line] + lines)[1..] == lines;
  }

  /** Text whose only line boundary is "\n". */
  predicate OnlyNewlines(s: string) {
    forall i :: 0 <= i < |s| && IsLineBoundary(s[i]) ==> s[i] == '\n'
  }

  /** Text that splits back: only "\n" breaks, and no final one. */
  predicate Rejoinable(s: string) {
    OnlyNewlines(s) && (s == [] || s[|s| - 1] != '\n')
  }

  /** A non-empty suffix of such text is such text. */
  lemma RejoinableSuffix(s: string, j: nat)
    requires j < |s| && Rejoinable(s)
    ensures Rejoinable(s[j..])
  {
    forall i | 0 <= i < |s[j..]| && IsLineBoundary(s[j..][i])
      ensures s[j..][i] == '\n'
    {
      assert s[j..][i] == s[j + i];
    }
    assert s[j..][|s[j..]| - 1] == s[|s| - 1];
  }

  /** Putting the first line back in front of the rejoined rest gives the text. */
  lemma JoinFirstLine(s: string, k: nat, lines: seq<string>)
    requires k < |s| && s[k] == '\n' && lines != [] && Join(lines, '\n') == s[k + 1..]
    ensures Join([s[..k]] + lines, '\n') == s
  {
    JoinCons(s[..k], lines, '\n');
    assert s == s[..k] + [s[k]] + s[k + 1..];
  }

  /** For text whose only line breaks are "\n" and that does not end in one, joining the
      lines with "\n" gives the text back. */
  lemma {:induction false} SplitLinesJoin(s: string)
    requires Rejoinable(s)
    ensures Join(SplitLines(s), '\n') == s
    decreases |s|
  {
    if s != [] {
      var k := LineEnd(s, 0);
      if k < |s| {
        assert IsLineBoundary(s[k]);
        RejoinableSuffix(s, k + 1);
        SplitLinesJoin(s[k + 1..]);
        SplitLinesAtNewline(s, k);
        JoinFirstLine(s, k, SplitLines(s[k + 1..]));
      }
    }
  }

  /** The characters a leading bullet or number is made of. */
  predicate IsBulletChar(c: char) {
    c == '-' || c == '*' || IsDigit(c) || c == '.' || c == ')'
  }

  /** `re.sub(r"^\s*[\-\*\d\.\)]+\s+", "", line)`: leading whitespace, a non-empty run of
      bullet characters and a non-empty run of whitespace are removed together, or nothing. */
  function StripBullet(line: string): (r: string)
    ensures |r| <= |line| && r == line[|line| - |r|..]
  {
    var k0 := RunEnd(line, 0, IsSpace);
    var k1 := RunEnd(line, k0, IsBulletChar);
    var k2 := RunEnd(line, k1, IsSpace);
    if k1 > k0 && k2 > k1 then line[k2..] else line
  }

  /** A line with its bullet removed and then stripped. */
  function CleanLine(line: string): string {
    Strip(StripBullet(line))
  }

  function CleanLines(lines: seq<string>): (r: seq<string>)
    ensures |r| == |lines|
    ensures forall i :: 0 <= i < |lines| ==> r[i] == CleanLine(lines[i])
  {
    if lines == [] then [] else [CleanLine(lines[0])] + CleanLines(lines[1..])
  }

  /** `ln and ln.endswith("?")` */
  predicate IsQuestion(q: string) {
    |q| > 0 && q[|q| - 1] == '?'
  }

  /** The kept lines, in text order. */
  function KeepQuestions(xs: seq<string>): (r: seq<string>)
    ensures |r| <= |xs|
    ensures forall i :: 0 <= i < |r| ==> IsQuestion(r[i])
  {
    if xs == [] then [] else (if IsQuestion(xs[0]) then [xs[0]] else []) + KeepQuestions(xs[1..])
  }

  /** A line is kept exactly when it is a question. */
  lemma {:induction false} KeepQuestionsMembers(xs: seq<string>, q: string)
    ensures q in KeepQuestions(xs) <==> q in xs && IsQuestion(q)
  {
    if xs != [] {
      KeepQuestionsMembers(xs[1..], q);
      assert xs == [xs[0]] + xs[1..];
    }
  }

  /** Filtering respects the order of the text: it distributes over concatenation. */
  lemma {:induction false} KeepQuestionsConcat(a: seq<string>, b: seq<string>)
    ensures KeepQuestions(a + b) == KeepQuestions(a) + KeepQuestions(b)
  {
    if a != [] {
      assert (a + b)[1..] == a[1..] + b;
      KeepQuestionsConcat(a[1..], b);
    } else {
      assert a + b == b;
    }
  }

  /** The question lines of a reply. */
  function ReplyQuestions(text: string): seq<string> {
    KeepQuestions(CleanLines(SplitLines(text)))
  }

  /** `questions[:6]` */
  function FirstSix(found: seq<string>): (first: seq<string>)
    ensures |first| == (if |found| < 6 then |found| else 6) && first == found[..|first|]
  {
    if |found| <= 6 then found else found[..6]
  }

  /** `generate_questions`: the seeded questions when the problem matches (the model is not
      consulted); the defaults for an empty reply; otherwise the first six question lines of
      the reply, or the defaults when it has none. */
  function GenerateQuestions(problem: string, reply: Option<string>): (qs: seq<string>)
    ensures 1 <= |qs| <= 6
    ensures MentionsSlackSummarizer(problem) ==> qs == SeededQuestions
    ensures !MentionsSlackSummarizer(problem) && (reply.None? || reply.value == "") ==> qs == DefaultQuestions
    ensures !MentionsSlackSummarizer(problem) && reply.Some? && reply.value != "" ==>
      var found := ReplyQuestions(reply.value);
      (found == [] ==> qs == DefaultQuestions) &&
      (found != [] ==> |qs| == (if |found| < 6 then |found| else 6) && qs == found[..|qs|])
  {
    var seeded := SeededQuestionsFor(problem);
    if seeded != [] then seeded[..6]
    else if reply.None? || reply.value == "" then DefaultQuestions
    else
      var first := FirstSix(ReplyQuestions(reply.value));
      if first == [] then DefaultQuestions else first
  }

  /** On a seeded problem the reply plays no part. */
  lemma SeededIgnoresReply(problem: string, r1: Option<string>, r2: Option<string>)
    requires MentionsSlackSummarizer(problem)
    ensures GenerateQuestions(problem, r1) == GenerateQuestions(problem, r2)
  {
  }

  /** A question among the first of the kept lines is a question line of the input. */
  lemma QuestionFromLines(lines: seq<string>, qs: seq<string>, q: string)
    requires |qs| <= |KeepQuestions(lines)| && qs == KeepQuestions(lines)[..|qs|] && q in qs
    ensures IsQuestion(q) && q in lines
  {
    var found := KeepQuestions(lines);
    var i :| 0 <= i < |qs| && qs[i] == q;
    assert found[i] == q;
    KeepQuestionsMembers(lines, q);
  }

  /** Every question taken from a reply is a cleaned line of it ending in "?". */
  lemma ReturnedFromReply(problem: string, text: string, q: string)
    requires !MentionsSlackSummarizer(problem) && text != "" && ReplyQuestions(text) != []
    requires q in GenerateQuestions(problem, Some(text))
    ensures IsQuestion(q) && q in CleanLines(SplitLines(text))
  {
    QuestionFromLines(CleanLines(SplitLines(text)), GenerateQuestions(problem, Some(text)), q);
  }
}

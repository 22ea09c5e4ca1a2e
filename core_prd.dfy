/**
 * `PRDEngine.create` of the minimal flows: the PRD is assembled from the problem and the
 * answers with fixed lists; the model's reply only becomes the summary.
 */
module CorePrdEngine {
  import opened Wrappers
  import opened Strs
  import opened CoreModels
  import opened CoreDiscovery

  const SlackWorkplan: seq<string> := [
    "M1: Connect Slack API + channel scope",
    "M2: Summarization prompts + privacy filter",
    "M3: Deliver summaries to target channel and Drive"
  ]

  const DefaultWorkplan: seq<string> := ["M1: Discovery", "M2: Prototype", "M3: Deliverable"]

  const Acceptance: seq<string> := ["Defined milestones", "Measurable summaries", "Privacy respected"]
  const Risks: seq<string> := ["Ambiguous scope", "API limits"]
  const Objective: string := "Ship an initial usable solution"
  const DefaultUsers: string := "General users"
  const Scope: seq<string> := ["MVP only"]
  const SuccessMetrics: seq<string> := ["On-time", "Usable", "Low cost"]
  const Constraints: seq<string> := ["Keep it simple"]

  /** The title cap of the minimal PRD. */
  const TitleLength: nat := 64

  /** `(problem or "Project").strip()[:64]`: the stripped problem (or "Project" for an empty
      one), cut to 64 characters. */
  function PrdTitle(problem: string): (title: string)
    ensures |title| <= TitleLength
    ensures var src := Strip(if problem == "" then "Project" else problem);
      StartsWith(src, title) && (|src| <= TitleLength ==> title == src) &&
      (|src| > TitleLength ==> |title| == TitleLength)
  {
    Take(Strip(if problem == "" then "Project" else problem), TitleLength)
  }

  /** Stripping leaves nothing only when every character is whitespace. */
  lemma StripEmptyAllSpace(s: string, i: nat)
    requires i < |s| && !IsSpace(s[i])
    ensures Strip(s) != []
  {
    var l := LStrip(s);
    assert l != [] && !IsSpace(l[0]);
  }

  /** A problem with a non-whitespace character gets a non-empty title. */
  lemma TitleNonEmpty(problem: string, i: nat)
    requires i < |problem| && !IsSpace(problem[i])
    ensures PrdTitle(problem) != []
  {
    StripEmptyAllSpace(problem, i);
  }

  /** `PRDEngine.create`: `prdId` stands for the fresh UUID and `reply` for the model's answer
      to the PRD prompt. */
  function CreatePrd(problem: string, answers: seq<string>, reply: string, prdId: string): (p: CorePrd)
    ensures p.id == prdId && p.title == PrdTitle(problem)
    ensures reply != "" ==> p.summary == Strip(reply)
    ensures reply == "" ==> p.summary == "PRD for " + p.title
    ensures answers != [] ==> p.users == Some(answers[0])
    ensures answers == [] ==> p.users == Some(DefaultUsers)
    ensures MentionsSlackSummarizer(problem) ==> p.initialWorkplan == SlackWorkplan
    ensures !MentionsSlackSummarizer(problem) ==> p.initialWorkplan == DefaultWorkplan
    ensures p.acceptanceCriteria == Acceptance && p.risks == Risks && p.objective == Some(Objective)
    ensures p.scope == Scope && p.successMetrics == SuccessMetrics && p.constraints == Constraints
  {
    var title := PrdTitle(problem);
    CorePrd(
      prdId, title,
      if reply != "" then Strip(reply) else "PRD for " + title,
      Acceptance, Risks, Some(Objective),
      Some(if answers != [] then answers[0] else DefaultUsers),
      Scope, SuccessMetrics, Constraints,
      if MentionsSlackSummarizer(problem) then SlackWorkplan else DefaultWorkplan)
  }

  /** The two workplans differ, so the workplan tells whether the problem was the seed. */
  lemma WorkplansDiffer()
    ensures SlackWorkplan != DefaultWorkplan
  {
    assert SlackWorkplan[0][4] == 'C' != DefaultWorkplan[0][4];
  }

  /** The PRD takes the seeded workplan exactly when discovery asks the seeded questions. */
  lemma SeededPrdAgreesWithDiscovery(problem: string, answers: seq<string>, reply: string, prdId: string)
    ensures CreatePrd(problem, answers, reply, prdId).initialWorkplan == SlackWorkplan
      <==> SeededQuestionsFor(problem) != []
  {
    WorkplansDiffer();
  }

  /** Only the summary depends on the reply. */
  lemma ReplyOnlyShapesSummary(problem: string, answers: seq<string>, r1: string, r2: string, prdId: string)
    ensures CreatePrd(problem, answers, r1, prdId).(summary := "") == CreatePrd(problem, answers, r2, prdId).(summary := "")
  {
  }
}

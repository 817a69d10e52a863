/**
 * The LLM service (internal/service/llm_service.go) around the model call:
 * the response-shape checks of generateContent, cleanJSONResponse, and the
 * checks EvaluateCV, EvaluateProject and FinalSummary make on what the
 * model returned. The model call, the prompts and the JSON decoding are
 * collaborators whose results are parameters.
 */
module Llm {
  import opened Errors
  import opened GoStrings

  datatype CVEvaluation = CVEvaluation(cvMatchRate: real, cvFeedback: string)

  datatype ProjectEvaluation = ProjectEvaluation(projectScore: real, projectFeedback: string)

  /** A candidate answer; content is nil or holds its parts' texts. */
  datatype Candidate = Candidate(content: Option<seq<string>>)

  /** A genai response: the candidates, and what its Text() method returns. */
  datatype Response = Response(candidates: seq<Candidate>, text: string)

  /** generateContent, given what the client's GenerateContent call returned. */
  function GenerateContent(call: Result<Response>): (r: Result<string>)
    ensures call.Err? ==> r == Err(call.error)
    ensures r.Ok? <==>
              && call.Ok? && |call.value.candidates| > 0
              && call.value.candidates[0].content.Some? && |call.value.candidates[0].content.value| > 0
    ensures r.Ok? ==> r.value == call.value.text
  {
    if call.Err? then Err(call.error)
    else if |call.value.candidates| == 0 then Err(Message("no candidates in response"))
    else
      var candidate := call.value.candidates[0];
      if candidate.content.None? || |candidate.content.value| == 0 then Err(Message("empty content in response"))
      else Ok(call.value.text)
  }

  const Fence := "```"
  const JsonFence := "```json"

  /** cleanJSONResponse: remove every "```json", then every "```", then trim. */
  function CleanJson(response: string): (r: string)
    ensures Trimmed(r)
  {
    TrimSpace(RemoveAll(RemoveAll(response, JsonFence), Fence))
  }

  /** After removing every "```" from left to right, none is left, even where the removal brought backticks together. */
  lemma {:induction false} NoFenceAfterRemoval(s: string)
    ensures !Occurs(RemoveAll(s, Fence), Fence)
    decreases |s|
  {
    if |s| >= |Fence| {
      if s[..|Fence|] == Fence {
        NoFenceAfterRemoval(s[|Fence|..]);
      } else {
        var rest := RemoveAll(s[1..], Fence);
        NoFenceAfterRemoval(s[1..]);
        assert RemoveAll(s, Fence) == [s[0]] + rest;
        if s[0] == '`' {
          if s[1] != '`' {
            RemoveAllKeepsHead(s[1..], Fence);
            assert rest[0] == s[1];
          } else {
            assert s[2] != '`';
            if |s[1..]| >= |Fence| {
              assert s[1..][..|Fence|][1] == s[2];
              assert rest == [s[1]] + RemoveAll(s[2..], Fence);
            } else {
              assert rest == s[1..];
            }
            assert s[2..][0] == s[2];
            RemoveAllKeepsHead(s[2..], Fence);
            assert rest[1] == s[2];
          }
        }
      }
    }
  }

  /** No "```" survives cleanJSONResponse. */
  lemma CleanJsonNoFence(response: string)
    ensures !Occurs(CleanJson(response), Fence)
  {
    var y := RemoveAll(RemoveAll(response, JsonFence), Fence);
    NoFenceAfterRemoval(RemoveAll(response, JsonFence));
    NoOccursTrim(y, Fence);
  }

  /** cleanJSONResponse is idempotent. */
  lemma CleanJsonIdempotent(response: string)
    ensures CleanJson(CleanJson(response)) == CleanJson(response)
  {
    var x := CleanJson(response);
    CleanJsonNoFence(response);
    if Occurs(x, JsonFence) {
      OccursPrefixPattern(x, JsonFence, Fence);
    }
    RemoveAllAbsent(x, JsonFence);
    RemoveAllAbsent(x, Fence);
    TrimSpaceFixed(x);
  }

  /** A response without backticks is only trimmed. */
  lemma CleanJsonWithoutBackticks(response: string)
    requires '`' !in response
    ensures CleanJson(response) == TrimSpace(response)
  {
    OccursNeedsFirst(response, JsonFence);
    RemoveAllAbsent(response, JsonFence);
    OccursNeedsFirst(response, Fence);
    RemoveAllAbsent(response, Fence);
  }

  /** The inputs of a prompt; the prompt templates themselves are not modelled. */
  datatype Prompt =
    | CVPrompt(cvText: string, jobDescContext: seq<string>, rubricContext: seq<string>)
    | ProjectPrompt(projectText: string, caseStudyContext: seq<string>, rubricContext: seq<string>)
    | SummaryPrompt(cvEval: CVEvaluation, projectEval: ProjectEvaluation)

  /**
   * The collaborators of the LLM service: the model call, json.Unmarshal
   * into each response struct, and fmt's %f rendering of a float64.
   */
  datatype Model = Model(
    call: Prompt -> Result<Response>,
    parseCV: string -> Result<CVEvaluation>,
    parseProject: string -> Result<ProjectEvaluation>,
    parseSummary: string -> Result<string>,
    formatFloat: real -> string)

  /**
   * EvaluateCV returns exactly the decoded evaluation of the cleaned response
   * when the model answered, the answer decoded, and the match rate lies in
   * [0, 1], both ends included; otherwise an error.
   */
  function EvaluateCV(m: Model, cvText: string, jobDescContext: seq<string>, rubricContext: seq<string>): (r: Result<CVEvaluation>)
    ensures var response := GenerateContent(m.call(CVPrompt(cvText, jobDescContext, rubricContext)));
            && (r.Ok? <==>
                  && response.Ok? && m.parseCV(CleanJson(response.value)).Ok?
                  && 0.0 <= m.parseCV(CleanJson(response.value)).value.cvMatchRate <= 1.0)
            && (r.Ok? ==> r.value == m.parseCV(CleanJson(response.value)).value)
            && (response.Err? ==> Unwrap(r.error) == Some(response.error))
  {
    var response := GenerateContent(m.call(CVPrompt(cvText, jobDescContext, rubricContext)));
    if response.Err? then Err(Wrap("failed to generate cv evaluation", response.error))
    else
      var cleaned := CleanJson(response.value);
      var parsed := m.parseCV(cleaned);
      if parsed.Err? then Err(Wrapped("failed to parse cv evaluation", parsed.error, " (response: " + cleaned + ")"))
      else if parsed.value.cvMatchRate < 0.0 || parsed.value.cvMatchRate > 1.0 then
        Err(Message("invalid cv_match_rate: " + m.formatFloat(parsed.value.cvMatchRate) + " (must be between 0 and 1)"))
      else Ok(parsed.value)
  }

  /** EvaluateProject accepts exactly the decoded scores in [1, 5], both ends included. */
  function EvaluateProject(m: Model, projectText: string, caseStudyContext: seq<string>, rubricContext: seq<string>): (r: Result<ProjectEvaluation>)
    ensures var response := GenerateContent(m.call(ProjectPrompt(projectText, caseStudyContext, rubricContext)));
            && (r.Ok? <==>
                  && response.Ok? && m.parseProject(CleanJson(response.value)).Ok?
                  && 1.0 <= m.parseProject(CleanJson(response.value)).value.projectScore <= 5.0)
            && (r.Ok? ==> r.value == m.parseProject(CleanJson(response.value)).value)
            && (response.Err? ==> Unwrap(r.error) == Some(response.error))
  {
    var response := GenerateContent(m.call(ProjectPrompt(projectText, caseStudyContext, rubricContext)));
    if response.Err? then Err(Wrap("failed to generate project evaluation", response.error))
    else
      var cleaned := CleanJson(response.value);
      var parsed := m.parseProject(cleaned);
      if parsed.Err? then Err(Wrapped("failed to parse project evaluation", parsed.error, " (response: " + cleaned + ")"))
      else if parsed.value.projectScore < 1.0 || parsed.value.projectScore > 5.0 then
        Err(Message("invalid project_score: " + m.formatFloat(parsed.value.projectScore) + " (must be between 1 and 5)"))
      else Ok(parsed.value)
  }

  /** FinalSummary succeeds exactly when the model answered and the answer decoded; the summary is then trimmed. */
  function FinalSummary(m: Model, cvEval: CVEvaluation, projectEval: ProjectEvaluation): (r: Result<string>)
    ensures var response := GenerateContent(m.call(SummaryPrompt(cvEval, projectEval)));
            && (r.Ok? <==> response.Ok? && m.parseSummary(CleanJson(response.value)).Ok?)
            && (r.Ok? ==> r.value == TrimSpace(m.parseSummary(CleanJson(response.value)).value) && Trimmed(r.value))
  {
    var response := GenerateContent(m.call(SummaryPrompt(cvEval, projectEval)));
    if response.Err? then Err(Wrap("failed to generate final summary", response.error))
    else
      var cleaned := CleanJson(response.value);
      var parsed := m.parseSummary(cleaned);
      if parsed.Err? then Err(Wrapped("failed to parse finaly summary", parsed.error, " (response: " + cleaned + ")"))
      else Ok(TrimSpace(parsed.value))
  }
}

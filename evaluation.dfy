/**
 * The evaluation use case (internal/usecase/evaluation_usecase.go): creating
 * a job once both of its documents exist, reading a job and its result, and
 * processing one job from the queue: load it, mark it processing, run the
 * retrieval-and-scoring pipeline, store the result, and mark the job
 * completed or failed.
 *
 * The job and result tables are classes holding maps; a database failure of
 * one of their calls is a parameter. The document lookup, the PDF service,
 * the vector index's collaborators and the LLM's collaborators are
 * functions in Env.
 */
module Evaluation {
  import opened Errors
  import opened GoStrings
  import opened Domain
  import opened Llm
  import Vectors
  import Chunking

  /** The collaborators of the evaluation use case. */
  datatype Env = Env(
    findDocument: Uuid -> Result<Document>,
    extract: string -> Result<string>,
    vectors: Vectors.Services,
    llm: Model)

  /** The evaluation_jobs table, keyed by job id. */
  class JobStore {
    var rows: map<Uuid, JobRecord>

    /** Every row is stored under its own id, the table's primary key. */
    predicate Valid()
      reads this
    {
      forall id :: id in rows ==> rows[id].id == id
    }

    constructor ()
      ensures rows == map[] && Valid()
    {
      rows := map[];
    }

    /** EvaluationJobRepository.Create */
    method Create(job: JobRecord, fault: Option<Error>) returns (err: Option<Error>)
      requires Valid()
      modifies this
      ensures Valid()
      ensures fault.None? ==> rows == old(rows)[job.id := job] && err == None
      ensures fault.Some? ==> rows == old(rows) && err == Some(Wrap("failed to create evaluation job", fault.value))
    {
      if fault.Some? {
        return Some(Wrap("failed to create evaluation job", fault.value));
      }
      rows := rows[job.id := job];
      return None;
    }

    /** EvaluationJobRepository.FindByID: a missing row is ErrJobNotFound, a database failure is wrapped. */
    function FindByID(id: Uuid, fault: Option<Error>): (r: Result<JobRecord>)
      reads this
      ensures r.Ok? <==> fault.None? && id in rows
      ensures r.Ok? ==> r.value == rows[id]
      ensures fault.None? && id !in rows ==> r == Err(Sentinel(JobNotFound))
    {
      if fault.Some? then Err(Wrap("failed to find evaluation job", fault.value))
      else if id !in rows then Err(Sentinel(JobNotFound))
      else Ok(rows[id])
    }

    /** EvaluationJobRepository.Update: the object's fields are saved under its id. */
    method Update(job: EvaluationJob, fault: Option<Error>) returns (err: Option<Error>)
      requires Valid()
      modifies this
      ensures Valid()
      ensures fault.None? ==> rows == old(rows)[job.id := job.Snapshot()] && err == None
      ensures fault.Some? ==> rows == old(rows) && err == Some(Wrap("failed to update evaluation job", fault.value))
    {
      if fault.Some? {
        return Some(Wrap("failed to update evaluation job", fault.value));
      }
      rows := rows[job.id := job.Snapshot()];
      return None;
    }
  }

  /** The evaluation_results table, keyed by job id (job_id is a unique column). */
  class ResultStore {
    var rows: map<Uuid, EvaluationResult>

    /** Every result is stored under the id of its job. */
    predicate Valid()
      reads this
    {
      forall jobId :: jobId in rows ==> rows[jobId].jobId == jobId
    }

    constructor ()
      ensures rows == map[] && Valid()
    {
      rows := map[];
    }

    /** EvaluationResultRepository.Create */
    method Create(result: EvaluationResult, fault: Option<Error>) returns (err: Option<Error>)
      requires Valid()
      modifies this
      ensures Valid()
      ensures fault.None? ==> rows == old(rows)[result.jobId := result] && err == None
      ensures fault.Some? ==> rows == old(rows) && err == Some(Wrap("failed to create evaluation result", fault.value))
    {
      if fault.Some? {
        return Some(Wrap("failed to create evaluation result", fault.value));
      }
      rows := rows[result.jobId := result];
      return None;
    }

    /** EvaluationResultRepository.FindByJobID: a missing row is ErrNotFound, a database failure is wrapped. */
    function FindByJobID(jobId: Uuid, fault: Option<Error>): (r: Result<EvaluationResult>)
      reads this
      ensures r.Ok? <==> fault.None? && jobId in rows
      ensures r.Ok? ==> r.value == rows[jobId]
      ensures fault.None? && jobId !in rows ==> r == Err(Sentinel(NotFound))
    {
      if fault.Some? then Err(Wrap("failed to find evaluation result", fault.value))
      else if jobId !in rows then Err(Sentinel(NotFound))
      else Ok(rows[jobId])
    }
  }

  /**
   * CreateEvaluationJob: the job is created, queued, only when both documents
   * are found; a failed lookup or a failed insert leaves the table as it was.
   */
  method CreateEvaluationJob(env: Env, jobs: JobStore, jobTitle: string, cvId: Uuid, reportId: Uuid,
                             jobId: Uuid, now: Time, fault: Option<Error>)
    returns (r: Result<JobRecord>)
    requires jobs.Valid()
    modifies jobs
    ensures jobs.Valid()
    ensures env.findDocument(cvId).Err? ==>
              r == Err(Wrap("cv document not found", env.findDocument(cvId).error)) && jobs.rows == old(jobs.rows)
    ensures env.findDocument(cvId).Ok? && env.findDocument(reportId).Err? ==>
              r == Err(Wrap("project report document not found", env.findDocument(reportId).error)) && jobs.rows == old(jobs.rows)
    ensures env.findDocument(cvId).Ok? && env.findDocument(reportId).Ok? && fault.Some? ==>
              r == Err(Wrap("failed to create evaluation job", Wrap("failed to create evaluation job", fault.value)))
              && jobs.rows == old(jobs.rows)
    ensures r.Ok? <==> env.findDocument(cvId).Ok? && env.findDocument(reportId).Ok? && fault.None?
    ensures r.Ok? ==>
              && r.value == NewJob(jobId, jobTitle, cvId, reportId, now)
              && r.value.status == Queued
              && jobs.rows == old(jobs.rows)[jobId := r.value]
  {
    var cvDoc := env.findDocument(cvId);
    if cvDoc.Err? {
      return Err(Wrap("cv document not found", cvDoc.error));
    }
    var reportDoc := env.findDocument(reportId);
    if reportDoc.Err? {
      return Err(Wrap("project report document not found", reportDoc.error));
    }
    var job := new EvaluationJob(jobId, jobTitle, cvId, reportId, now);
    var err := jobs.Create(job.Snapshot(), fault);
    if err.Some? {
      return Err(Wrap("failed to create evaluation job", err.value));
    }
    return Ok(job.Snapshot());
  }

  /**
   * GetEvaluationJob as written: the result is looked up only for a
   * completed job, and a failed lookup is passed on unless it is
   * ErrJobNotFound, which the result lookup never returns.
   */
  function GetEvaluationJob(jobs: JobStore, results: ResultStore, jobId: Uuid, jobFault: Option<Error>, resultFault: Option<Error>)
    : (r: (Option<JobRecord>, Option<EvaluationResult>, Option<Error>))
    reads jobs, results
    ensures r.2.None? <==>
              jobFault.None? && jobId in jobs.rows &&
              (jobs.rows[jobId].status == Completed ==> resultFault.None? && jobId in results.rows)
    ensures jobFault.None? && jobId !in jobs.rows ==> r == (None, None, Some(Sentinel(JobNotFound)))
    ensures r.2.None? ==> jobId in jobs.rows && r.0 == Some(jobs.rows[jobId])
    ensures r.1.Some? <==> r.2.None? && jobs.rows[jobId].status == Completed && jobId in results.rows && resultFault.None?
    ensures r.1.Some? ==> r.1.value == results.rows[jobId]
  {
    var job := jobs.FindByID(jobId, jobFault);
    if job.Err? then (None, None, Some(job.error))
    else if job.value.status == Completed then
      var result := results.FindByJobID(jobId, resultFault);
      if result.Err? && result.error != Sentinel(JobNotFound) then (Some(job.value), None, Some(result.error))
      else (Some(job.value), if result.Ok? then Some(result.value) else None, None)
    else (Some(job.value), None, None)
  }

  /**
   * A completed job without a result row is reported as ErrNotFound by
   * GetEvaluationJob as written, although the job itself was found.
   */
  lemma MissingResultIsAnError(jobs: JobStore, results: ResultStore, jobId: Uuid)
    requires jobId in jobs.rows && jobs.rows[jobId].status == Completed && jobId !in results.rows
    ensures GetEvaluationJob(jobs, results, jobId, None, None) == (Some(jobs.rows[jobId]), None, Some(Sentinel(NotFound)))
  {
    assert Sentinel(NotFound) != Sentinel(JobNotFound);
  }

  /**
   * GetEvaluationJob with the comparison against the error the result
   * lookup really returns: a missing result leaves the result empty, and
   * an error is reported only when a lookup itself failed.
   */
  function GetEvaluationJobCorrected(jobs: JobStore, results: ResultStore, jobId: Uuid, jobFault: Option<Error>, resultFault: Option<Error>)
    : (r: (Option<JobRecord>, Option<EvaluationResult>, Option<Error>))
    reads jobs, results
    ensures r.2.None? <==> jobFault.None? && jobId in jobs.rows && (jobs.rows[jobId].status == Completed ==> resultFault.None?)
    ensures jobFault.None? && jobId !in jobs.rows ==> r == (None, None, Some(Sentinel(JobNotFound)))
    ensures r.2.None? ==> r.0 == Some(jobs.rows[jobId])
    ensures r.2.None? ==>
              (r.1.Some? <==> jobs.rows[jobId].status == Completed && jobId in results.rows)
              && (r.1.Some? ==> r.1.value == results.rows[jobId])
  {
    var job := jobs.FindByID(jobId, jobFault);
    if job.Err? then (None, None, Some(job.error))
    else if job.value.status == Completed then
      var result := results.FindByJobID(jobId, resultFault);
      if result.Err? && result.error != Sentinel(NotFound) then (Some(job.value), None, Some(result.error))
      else (Some(job.value), if result.Ok? then Some(result.value) else None, None)
    else (Some(job.value), None, None)
  }

  /** The smaller of two ints, as the package's min helper computes it. */
  function Min(a: int, b: int): (r: int)
    ensures r <= a && r <= b && (r == a || r == b)
  {
    if a < b then a else b
  }

  /** text[:min(500, len(text))]: at most the first 500 bytes of the text's UTF-8 encoding. */
  function Head(text: string): (r: seq<byte>)
    ensures |r| == Min(500, |Encode(text)|)
    ensures r <= Encode(text)
  {
    Encode(text)[..Min(500, |Encode(text)|)]
  }

  /** The job-description query: the job title, a space, and the head of the CV text. */
  function JobDescriptionQuery(jobTitle: string, cvText: string): seq<byte>
  {
    Encode(jobTitle) + AsciiBytes(" ") + Head(cvText)
  }

  /** The fixed queries of the two rubric searches, as UTF-8 bytes. */
  const CVRubricQuery: seq<byte> := AsciiBytes("CV evaluation scoring criteria")
  const ProjectRubricQuery: seq<byte> := AsciiBytes("Project evaluation scoring criteria")

  /**
   * The job-description query is the bytes of the title and a space,
   * followed by at most the first 500 bytes of the CV text: all of it when
   * it is no longer than that. The cut counts bytes, so it may fall inside
   * a multi-byte character.
   */
  lemma QueryShape(jobTitle: string, cvText: string)
    ensures JobDescriptionQuery(jobTitle, cvText) == Encode(jobTitle + " ") + Head(cvText)
    ensures |JobDescriptionQuery(jobTitle, cvText)| == ByteLen(jobTitle) + 1 + Min(500, ByteLen(cvText))
    ensures ByteLen(cvText) <= 500 ==> Head(cvText) == Encode(cvText)
    ensures |Head(cvText)| <= 500
  {
    EncodeAppend(jobTitle, " ");
    AsciiBytesEncode(" ");
    ByteLenEncode(jobTitle);
    ByteLenEncode(cvText);
  }

  /** The contents of the documents, in order. */
  function DocContents(docs: seq<VectorDocument>): (r: seq<string>)
    ensures |r| == |docs| && forall i :: 0 <= i < |r| ==> r[i] == docs[i].content
  {
    seq(|docs|, i requires 0 <= i < |docs| => docs[i].content)
  }

  /** extractContent: fills a list of the same length with the documents' contents. */
  method ExtractContent(docs: seq<VectorDocument>) returns (contents: seq<string>)
    ensures contents == DocContents(docs)
  {
    contents := seq(|docs|, _ => []);
    for i := 0 to |docs|
      invariant |contents| == |docs|
      invariant forall j :: 0 <= j < i ==> contents[j] == docs[j].content
    {
      contents := contents[i := docs[i].content];
    }
  }

  /**
   * A search hands back rows that IngestDocument built, and the contents
   * extracted from such rows are the contents of the chunks they were built
   * from, in order.
   */
  lemma ChunkDocsContents(chunks: seq<Chunking.TextChunk>, embeddings: seq<Embedding>, docType: DocumentType, metadata: Metadata)
    requires |embeddings| == |chunks|
    ensures DocContents(Vectors.ChunkDocs(chunks, embeddings, docType, metadata)) == Vectors.Contents(chunks)
  {
  }

  /** What the scoring steps produce. */
  datatype Assessment = Assessment(cvEval: CVEvaluation, projectEval: ProjectEvaluation, summary: string)

  /**
   * The first half of processEvaluation: the two document lookups and the
   * two extractions, then the rest. The CV extraction's error is copied
   * with %s, so it does not wrap its cause.
   */
  function Assess(env: Env, job: JobRecord): Result<Assessment>
  {
    var cvDoc := env.findDocument(job.cvId);
    if cvDoc.Err? then Err(Wrap("failed to get cv document", cvDoc.error))
    else
      var reportDoc := env.findDocument(job.projectReportId);
      if reportDoc.Err? then Err(Wrap("failed to get project report document", reportDoc.error))
      else
        var cvText := env.extract(cvDoc.value.filePath);
        if cvText.Err? then Err(Message("failed to extract cv text: " + Text(cvText.error)))
        else
          var prText := env.extract(reportDoc.value.filePath);
          if prText.Err? then Err(Wrap("failed to extract project text", prText.error))
          else AssessTexts(env, job.jobTitle, cvText.value, prText.value)
  }

  /**
   * The retrieval and scoring half of processEvaluation, in its fixed order:
   * the CV steps, the project steps, then the summary.
   */
  function AssessTexts(env: Env, jobTitle: string, cvText: string, prText: string): Result<Assessment>
  {
    var cvEval := AssessCV(env, jobTitle, cvText);
    if cvEval.Err? then Err(cvEval.error)
    else
      var projectEval := AssessProject(env, prText);
      if projectEval.Err? then Err(projectEval.error)
      else
        var summary := FinalSummary(env.llm, cvEval.value, projectEval.value);
        if summary.Err? then Err(Wrap("failed to generate summary", summary.error))
        else Ok(Assessment(cvEval.value, projectEval.value, summary.value))
  }

  /** Job descriptions (5 nearest to the title and the head of the CV), the CV rubric (3), then the CV evaluation. */
  function AssessCV(env: Env, jobTitle: string, cvText: string): Result<CVEvaluation>
  {
    var jdDocs := Vectors.SearchSimilar(env.vectors, JobDescriptionQuery(jobTitle, cvText), JobDescription, 5);
    if jdDocs.Err? then Err(Wrap("failed to search job description", jdDocs.error))
    else
      var cvRubricDocs := Vectors.SearchSimilar(env.vectors, CVRubricQuery, CVRubric, 3);
      if cvRubricDocs.Err? then Err(Wrap("failed to search cv rubric", cvRubricDocs.error))
      else
        var cvEval := EvaluateCV(env.llm, cvText, DocContents(jdDocs.value), DocContents(cvRubricDocs.value));
        if cvEval.Err? then Err(Wrap("failed to evaluate cv", cvEval.error))
        else Ok(cvEval.value)
  }

  /** Case study briefs (5 nearest to the head of the report), the project rubric (3), then the project evaluation. */
  function AssessProject(env: Env, prText: string): Result<ProjectEvaluation>
  {
    var csDocs := Vectors.SearchSimilar(env.vectors, Head(prText), CaseStudyBrief, 5);
    if csDocs.Err? then Err(Wrap("failed to search case study brief", csDocs.error))
    else
      var projectRubricDocs := Vectors.SearchSimilar(env.vectors, ProjectRubricQuery, ProjectRubric, 3);
      if projectRubricDocs.Err? then Err(Wrap("failed to search project rubric", projectRubricDocs.error))
      else
        var projectEval := EvaluateProject(env.llm, prText, DocContents(csDocs.value), DocContents(projectRubricDocs.value));
        if projectEval.Err? then Err(Wrap("failed to evaluate project", projectEval.error))
        else Ok(projectEval.value)
  }

  /** The row NewEvaluationResult builds for a job from its assessment. */
  function ResultOf(resultId: Uuid, jobId: Uuid, a: Assessment): EvaluationResult
  {
    EvaluationResult(resultId, jobId, a.cvEval.cvMatchRate, a.cvEval.cvFeedback,
                     a.projectEval.projectScore, a.projectEval.projectFeedback, a.summary)
  }

  /** What processEvaluation leaves behind: the stored result, or the error that stopped it. */
  function EvaluationOutcome(env: Env, job: JobRecord, resultId: Uuid, saveFault: Option<Error>): Result<EvaluationResult>
  {
    var a := Assess(env, job);
    if a.Err? then Err(a.error)
    else if saveFault.Some? then
      Err(Wrap("failed to save evaluation result", Wrap("failed to create evaluation result", saveFault.value)))
    else Ok(ResultOf(resultId, job.id, a.value))
  }

  /**
   * A stored result belongs to the job it was computed for and carries the
   * evaluations the LLM service accepted: a match rate in [0, 1], a project
   * score in [1, 5], and a trimmed summary.
   */
  lemma OutcomeBounds(env: Env, job: JobRecord, resultId: Uuid, saveFault: Option<Error>)
    requires EvaluationOutcome(env, job, resultId, saveFault).Ok?
    ensures var res := EvaluationOutcome(env, job, resultId, saveFault).value;
            && saveFault.None? && res.id == resultId && res.jobId == job.id
            && 0.0 <= res.cvMatchRate <= 1.0 && 1.0 <= res.projectScore <= 5.0
            && Trimmed(res.overallSummary)
  {
    var a := Assess(env, job).value;
    var cvDoc := env.findDocument(job.cvId).value;
    var reportDoc := env.findDocument(job.projectReportId).value;
    var cvText := env.extract(cvDoc.filePath).value;
    var prText := env.extract(reportDoc.filePath).value;
    assert Assess(env, job) == AssessTexts(env, job.jobTitle, cvText, prText);
    assert a.cvEval == AssessCV(env, job.jobTitle, cvText).value;
    assert a.projectEval == AssessProject(env, prText).value;
  }

  /**
   * The CV extraction error is formatted with %s: the pipeline error has
   * the cause's text but does not wrap it, unlike every other step's error.
   */
  lemma ExtractionErrors(env: Env, job: JobRecord)
    requires env.findDocument(job.cvId).Ok? && env.findDocument(job.projectReportId).Ok?
    ensures var e := env.extract(env.findDocument(job.cvId).value.filePath);
            e.Err? ==>
              && Assess(env, job) == Err(Message("failed to extract cv text: " + Text(e.error)))
              && Unwrap(Assess(env, job).error) == None
    ensures var e := env.extract(env.findDocument(job.projectReportId).value.filePath);
            env.extract(env.findDocument(job.cvId).value.filePath).Ok? && e.Err? ==>
              && Text(Assess(env, job).error) == "failed to extract project text: " + Text(e.error)
              && Unwrap(Assess(env, job).error) == Some(e.error)
  {
  }

  /** The CV text and the project report text, when both lookups and both extractions succeed. */
  function Texts(env: Env, job: JobRecord): Option<(string, string)>
  {
    var cvDoc := env.findDocument(job.cvId);
    var reportDoc := env.findDocument(job.projectReportId);
    if cvDoc.Err? || reportDoc.Err? then None
    else
      var cvText := env.extract(cvDoc.value.filePath);
      var prText := env.extract(reportDoc.value.filePath);
      if cvText.Err? || prText.Err? then None else Some((cvText.value, prText.value))
  }

  /** Once both texts are at hand, the rest of processEvaluation is AssessTexts on them. */
  lemma AssessFromTexts(env: Env, job: JobRecord, cvText: string, prText: string)
    requires Texts(env, job) == Some((cvText, prText))
    ensures Assess(env, job) == AssessTexts(env, job.jobTitle, cvText, prText)
  {
  }

  /** The CV steps succeed exactly when both searches (top 5, then top 3) and the CV evaluation do, and give that evaluation. */
  lemma AssessCVOkIff(env: Env, jobTitle: string, cvText: string)
    ensures var jdDocs := Vectors.SearchSimilar(env.vectors, JobDescriptionQuery(jobTitle, cvText), JobDescription, 5);
            var cvRubricDocs := Vectors.SearchSimilar(env.vectors, CVRubricQuery, CVRubric, 3);
            var a := AssessCV(env, jobTitle, cvText);
            && (a.Ok? <==> jdDocs.Ok? && cvRubricDocs.Ok? &&
                           EvaluateCV(env.llm, cvText, DocContents(jdDocs.value), DocContents(cvRubricDocs.value)).Ok?)
            && (a.Ok? ==> a == EvaluateCV(env.llm, cvText, DocContents(jdDocs.value), DocContents(cvRubricDocs.value)))
  {
  }

  /** The project steps succeed exactly when both searches (top 5, then top 3) and the project evaluation do, and give that evaluation. */
  lemma AssessProjectOkIff(env: Env, prText: string)
    ensures var csDocs := Vectors.SearchSimilar(env.vectors, Head(prText), CaseStudyBrief, 5);
            var projectRubricDocs := Vectors.SearchSimilar(env.vectors, ProjectRubricQuery, ProjectRubric, 3);
            var a := AssessProject(env, prText);
            && (a.Ok? <==> csDocs.Ok? && projectRubricDocs.Ok? &&
                           EvaluateProject(env.llm, prText, DocContents(csDocs.value), DocContents(projectRubricDocs.value)).Ok?)
            && (a.Ok? ==> a == EvaluateProject(env.llm, prText, DocContents(csDocs.value), DocContents(projectRubricDocs.value)))
  {
  }

  /**
   * processEvaluation stores a result exactly when both lookups and both
   * extractions, the CV steps, the project steps, the summary and the save
   * succeed; the stored result carries exactly the scores and feedback of
   * those evaluations and that summary.
   */
  lemma OutcomeOkIff(env: Env, job: JobRecord, resultId: Uuid, saveFault: Option<Error>)
    ensures var outcome := EvaluationOutcome(env, job, resultId, saveFault);
            && (outcome.Ok? <==>
                  && Texts(env, job).Some?
                  && AssessCV(env, job.jobTitle, Texts(env, job).value.0).Ok?
                  && AssessProject(env, Texts(env, job).value.1).Ok?
                  && FinalSummary(env.llm, AssessCV(env, job.jobTitle, Texts(env, job).value.0).value,
                                  AssessProject(env, Texts(env, job).value.1).value).Ok?
                  && saveFault.None?)
            && (outcome.Ok? ==>
                  var cvEval := AssessCV(env, job.jobTitle, Texts(env, job).value.0).value;
                  var projectEval := AssessProject(env, Texts(env, job).value.1).value;
                  var summary := FinalSummary(env.llm, cvEval, projectEval).value;
                  outcome.value == EvaluationResult(resultId, job.id, cvEval.cvMatchRate, cvEval.cvFeedback,
                                                    projectEval.projectScore, projectEval.projectFeedback, summary))
  {
    if Texts(env, job).Some? {
      AssessFromTexts(env, job, Texts(env, job).value.0, Texts(env, job).value.1);
    }
  }

  /** A failed CV lookup stops processEvaluation with its error wrapped. */
  lemma CVLookupFails(env: Env, job: JobRecord, resultId: Uuid, saveFault: Option<Error>)
    requires env.findDocument(job.cvId).Err?
    ensures EvaluationOutcome(env, job, resultId, saveFault) ==
            Err(Wrap("failed to get cv document", env.findDocument(job.cvId).error))
  {
  }

  /** After the CV lookup, a failed report lookup stops processEvaluation with its error wrapped. */
  lemma ReportLookupFails(env: Env, job: JobRecord, resultId: Uuid, saveFault: Option<Error>)
    requires env.findDocument(job.cvId).Ok? && env.findDocument(job.projectReportId).Err?
    ensures EvaluationOutcome(env, job, resultId, saveFault) ==
            Err(Wrap("failed to get project report document", env.findDocument(job.projectReportId).error))
  {
  }

  /** After both lookups, a failed CV extraction stops processEvaluation with its text, not wrapped. */
  lemma CVExtractionFails(env: Env, job: JobRecord, resultId: Uuid, saveFault: Option<Error>)
    requires env.findDocument(job.cvId).Ok? && env.findDocument(job.projectReportId).Ok?
    requires env.extract(env.findDocument(job.cvId).value.filePath).Err?
    ensures EvaluationOutcome(env, job, resultId, saveFault) ==
            Err(Message("failed to extract cv text: " + Text(env.extract(env.findDocument(job.cvId).value.filePath).error)))
  {
  }

  /** After both lookups and the CV extraction, a failed report extraction stops processEvaluation with its error wrapped. */
  lemma ReportExtractionFails(env: Env, job: JobRecord, resultId: Uuid, saveFault: Option<Error>)
    requires env.findDocument(job.cvId).Ok? && env.findDocument(job.projectReportId).Ok?
    requires env.extract(env.findDocument(job.cvId).value.filePath).Ok?
    requires env.extract(env.findDocument(job.projectReportId).value.filePath).Err?
    ensures EvaluationOutcome(env, job, resultId, saveFault) ==
            Err(Wrap("failed to extract project text", env.extract(env.findDocument(job.projectReportId).value.filePath).error))
  {
  }

  /** With both texts at hand, a failed job-description search stops processEvaluation with its error wrapped. */
  lemma JobDescriptionSearchFails(env: Env, job: JobRecord, resultId: Uuid, saveFault: Option<Error>, cvText: string, prText: string)
    requires Texts(env, job) == Some((cvText, prText))
    requires Vectors.SearchSimilar(env.vectors, JobDescriptionQuery(job.jobTitle, cvText), JobDescription, 5).Err?
    ensures EvaluationOutcome(env, job, resultId, saveFault) ==
            Err(Wrap("failed to search job description",
                     Vectors.SearchSimilar(env.vectors, JobDescriptionQuery(job.jobTitle, cvText), JobDescription, 5).error))
  {
    AssessFromTexts(env, job, cvText, prText);
  }

  /** After the job-description search, a failed CV-rubric search stops processEvaluation with its error wrapped. */
  lemma CVRubricSearchFails(env: Env, job: JobRecord, resultId: Uuid, saveFault: Option<Error>, cvText: string, prText: string)
    requires Texts(env, job) == Some((cvText, prText))
    requires Vectors.SearchSimilar(env.vectors, JobDescriptionQuery(job.jobTitle, cvText), JobDescription, 5).Ok?
    requires Vectors.SearchSimilar(env.vectors, CVRubricQuery, CVRubric, 3).Err?
    ensures EvaluationOutcome(env, job, resultId, saveFault) ==
            Err(Wrap("failed to search cv rubric", Vectors.SearchSimilar(env.vectors, CVRubricQuery, CVRubric, 3).error))
  {
    AssessFromTexts(env, job, cvText, prText);
  }

  /** After both CV searches, a failed CV evaluation stops processEvaluation with its error wrapped. */
  lemma CVEvaluationFails(env: Env, job: JobRecord, resultId: Uuid, saveFault: Option<Error>, cvText: string, prText: string,
                          jdDocs: seq<VectorDocument>, cvRubricDocs: seq<VectorDocument>)
    requires Texts(env, job) == Some((cvText, prText))
    requires Vectors.SearchSimilar(env.vectors, JobDescriptionQuery(job.jobTitle, cvText), JobDescription, 5) == Ok(jdDocs)
    requires Vectors.SearchSimilar(env.vectors, CVRubricQuery, CVRubric, 3) == Ok(cvRubricDocs)
    requires EvaluateCV(env.llm, cvText, DocContents(jdDocs), DocContents(cvRubricDocs)).Err?
    ensures EvaluationOutcome(env, job, resultId, saveFault) ==
            Err(Wrap("failed to evaluate cv", EvaluateCV(env.llm, cvText, DocContents(jdDocs), DocContents(cvRubricDocs)).error))
  {
    AssessFromTexts(env, job, cvText, prText);
  }

  /** After the CV steps, a failed case-study search stops processEvaluation with its error wrapped. */
  lemma CaseStudySearchFails(env: Env, job: JobRecord, resultId: Uuid, saveFault: Option<Error>, cvText: string, prText: string)
    requires Texts(env, job) == Some((cvText, prText)) && AssessCV(env, job.jobTitle, cvText).Ok?
    requires Vectors.SearchSimilar(env.vectors, Head(prText), CaseStudyBrief, 5).Err?
    ensures EvaluationOutcome(env, job, resultId, saveFault) ==
            Err(Wrap("failed to search case study brief", Vectors.SearchSimilar(env.vectors, Head(prText), CaseStudyBrief, 5).error))
  {
    AssessFromTexts(env, job, cvText, prText);
  }

  /** After the CV steps and the case-study search, a failed project-rubric search stops processEvaluation with its error wrapped. */
  lemma ProjectRubricSearchFails(env: Env, job: JobRecord, resultId: Uuid, saveFault: Option<Error>, cvText: string, prText: string)
    requires Texts(env, job) == Some((cvText, prText)) && AssessCV(env, job.jobTitle, cvText).Ok?
    requires Vectors.SearchSimilar(env.vectors, Head(prText), CaseStudyBrief, 5).Ok?
    requires Vectors.SearchSimilar(env.vectors, ProjectRubricQuery, ProjectRubric, 3).Err?
    ensures EvaluationOutcome(env, job, resultId, saveFault) ==
            Err(Wrap("failed to search project rubric", Vectors.SearchSimilar(env.vectors, ProjectRubricQuery, ProjectRubric, 3).error))
  {
    AssessFromTexts(env, job, cvText, prText);
  }

  /** After the CV steps and both project searches, a failed project evaluation stops processEvaluation with its error wrapped. */
  lemma ProjectEvaluationFails(env: Env, job: JobRecord, resultId: Uuid, saveFault: Option<Error>, cvText: string, prText: string,
                               csDocs: seq<VectorDocument>, projectRubricDocs: seq<VectorDocument>)
    requires Texts(env, job) == Some((cvText, prText)) && AssessCV(env, job.jobTitle, cvText).Ok?
    requires Vectors.SearchSimilar(env.vectors, Head(prText), CaseStudyBrief, 5) == Ok(csDocs)
    requires Vectors.SearchSimilar(env.vectors, ProjectRubricQuery, ProjectRubric, 3) == Ok(projectRubricDocs)
    requires EvaluateProject(env.llm, prText, DocContents(csDocs), DocContents(projectRubricDocs)).Err?
    ensures EvaluationOutcome(env, job, resultId, saveFault) ==
            Err(Wrap("failed to evaluate project", EvaluateProject(env.llm, prText, DocContents(csDocs), DocContents(projectRubricDocs)).error))
  {
    AssessFromTexts(env, job, cvText, prText);
  }

  /** After the CV and project steps, a failed summary stops processEvaluation with its error wrapped. */
  lemma SummaryFails(env: Env, job: JobRecord, resultId: Uuid, saveFault: Option<Error>, cvText: string, prText: string,
                     cvEval: CVEvaluation, projectEval: ProjectEvaluation)
    requires Texts(env, job) == Some((cvText, prText))
    requires AssessCV(env, job.jobTitle, cvText) == Ok(cvEval) && AssessProject(env, prText) == Ok(projectEval)
    requires FinalSummary(env.llm, cvEval, projectEval).Err?
    ensures EvaluationOutcome(env, job, resultId, saveFault) ==
            Err(Wrap("failed to generate summary", FinalSummary(env.llm, cvEval, projectEval).error))
  {
    AssessFromTexts(env, job, cvText, prText);
  }

  /** When every step before it succeeded, a failed save stops processEvaluation with its error wrapped twice. */
  lemma SaveFails(env: Env, job: JobRecord, resultId: Uuid, fault: Error, cvText: string, prText: string,
                  cvEval: CVEvaluation, projectEval: ProjectEvaluation)
    requires Texts(env, job) == Some((cvText, prText))
    requires AssessCV(env, job.jobTitle, cvText) == Ok(cvEval) && AssessProject(env, prText) == Ok(projectEval)
    requires FinalSummary(env.llm, cvEval, projectEval).Ok?
    ensures EvaluationOutcome(env, job, resultId, Some(fault)) ==
            Err(Wrap("failed to save evaluation result", Wrap("failed to create evaluation result", fault)))
  {
    AssessFromTexts(env, job, cvText, prText);
  }

  /**
   * The job row Process leaves behind when every save succeeded: completed
   * exactly when the pipeline succeeded, otherwise failed with the text of
   * the error Process returns; a queued, consistent job stays consistent.
   */
  lemma FinishedRow(r: JobRecord, outcome: Result<EvaluationResult>, t1: Time, t2: Time)
    ensures var f := Finished(MarkedProcessing(r, t1), outcome, t2);
            && (f.status == Completed <==> outcome.Ok?)
            && (f.status == JobStatus.Failed <==> outcome.Err?)
            && (outcome.Err? ==> f.errorMessage == Some(Text(outcome.error)))
            && f.startedAt == Some(t1) && f.completedAt == Some(t2)
            && f.id == r.id && f.jobTitle == r.jobTitle && f.cvId == r.cvId && f.projectReportId == r.projectReportId
            && (Consistent(r) && r.status == Queued ==> Consistent(f))
  {
  }

  /** processEvaluation: the result row is written exactly when every step succeeded. */
  method ProcessEvaluation(env: Env, results: ResultStore, job: JobRecord, resultId: Uuid, saveFault: Option<Error>)
    returns (err: Option<Error>)
    requires results.Valid()
    modifies results
    ensures results.Valid()
    ensures var outcome := EvaluationOutcome(env, job, resultId, saveFault);
            && err == (if outcome.Err? then Some(outcome.error) else None)
            && results.rows == (if outcome.Ok? then old(results.rows)[job.id := outcome.value] else old(results.rows))
  {
    var cvDoc := env.findDocument(job.cvId);
    if cvDoc.Err? {
      return Some(Wrap("failed to get cv document", cvDoc.error));
    }
    var reportDoc := env.findDocument(job.projectReportId);
    if reportDoc.Err? {
      return Some(Wrap("failed to get project report document", reportDoc.error));
    }
    var cvText := env.extract(cvDoc.value.filePath);
    if cvText.Err? {
      return Some(Message("failed to extract cv text: " + Text(cvText.error)));
    }
    var prText := env.extract(reportDoc.value.filePath);
    if prText.Err? {
      return Some(Wrap("failed to extract project text", prText.error));
    }
    var assessed := ProcessTexts(env, job.jobTitle, cvText.value, prText.value);
    if assessed.Err? {
      return Some(assessed.error);
    }
    var result := ResultOf(resultId, job.id, assessed.value);
    var e := results.Create(result, saveFault);
    if e.Some? {
      return Some(Wrap("failed to save evaluation result", e.value));
    }
    return None;
  }

  /** The retrieval and scoring statements of processEvaluation (lines 149-193). */
  method ProcessTexts(env: Env, jobTitle: string, cvText: string, prText: string) returns (r: Result<Assessment>)
    ensures r == AssessTexts(env, jobTitle, cvText, prText)
  {
    var cvEval := ProcessCV(env, jobTitle, cvText);
    if cvEval.Err? {
      return Err(cvEval.error);
    }
    var projectEval := ProcessProject(env, prText);
    if projectEval.Err? {
      return Err(projectEval.error);
    }
    var summary := FinalSummary(env.llm, cvEval.value, projectEval.value);
    if summary.Err? {
      return Err(Wrap("failed to generate summary", summary.error));
    }
    return Ok(Assessment(cvEval.value, projectEval.value, summary.value));
  }

  /** Lines 149-167 of processEvaluation. */
  method ProcessCV(env: Env, jobTitle: string, cvText: string) returns (r: Result<CVEvaluation>)
    ensures r == AssessCV(env, jobTitle, cvText)
  {
    var jdDocs := Vectors.SearchSimilar(env.vectors, JobDescriptionQuery(jobTitle, cvText), JobDescription, 5);
    if jdDocs.Err? {
      return Err(Wrap("failed to search job description", jdDocs.error));
    }
    var jdContext := ExtractContent(jdDocs.value);
    var cvRubricDocs := Vectors.SearchSimilar(env.vectors, CVRubricQuery, CVRubric, 3);
    if cvRubricDocs.Err? {
      return Err(Wrap("failed to search cv rubric", cvRubricDocs.error));
    }
    var cvRubricContext := ExtractContent(cvRubricDocs.value);
    var cvEval := EvaluateCV(env.llm, cvText, jdContext, cvRubricContext);
    if cvEval.Err? {
      return Err(Wrap("failed to evaluate cv", cvEval.error));
    }
    return Ok(cvEval.value);
  }

  /** Lines 169-187 of processEvaluation. */
  method ProcessProject(env: Env, prText: string) returns (r: Result<ProjectEvaluation>)
    ensures r == AssessProject(env, prText)
  {
    var csDocs := Vectors.SearchSimilar(env.vectors, Head(prText), CaseStudyBrief, 5);
    if csDocs.Err? {
      return Err(Wrap("failed to search case study brief", csDocs.error));
    }
    var csContext := ExtractContent(csDocs.value);
    var projectRubricDocs := Vectors.SearchSimilar(env.vectors, ProjectRubricQuery, ProjectRubric, 3);
    if projectRubricDocs.Err? {
      return Err(Wrap("failed to search project rubric", projectRubricDocs.error));
    }
    var projectRubricContext := ExtractContent(projectRubricDocs.value);
    var projectEval := EvaluateProject(env.llm, prText, csContext, projectRubricContext);
    if projectEval.Err? {
      return Err(Wrap("failed to evaluate project", projectEval.error));
    }
    return Ok(projectEval.value);
  }

  /** The database failures Process may meet, one per repository call. */
  datatype StoreFaults = StoreFaults(
    findJob: Option<Error>,
    markProcessing: Option<Error>,
    saveResult: Option<Error>,
    markFinished: Option<Error>)

  /** The job row once processEvaluation has run: completed on success, failed with the error's text otherwise. */
  function Finished(started: JobRecord, outcome: Result<EvaluationResult>, now: Time): JobRecord
  {
    if outcome.Ok? then MarkedCompleted(started, now) else MarkedFailed(started, Text(outcome.error), now)
  }

  /**
   * Process: a job that cannot be loaded, or whose processing status cannot
   * be saved, is left alone and no pipeline step runs; otherwise the
   * pipeline runs, the result is stored exactly when it succeeded, and the
   * job is saved failed with the pipeline error's text, or completed. The
   * error of saving the failed status is dropped; the error of saving the
   * completed status is wrapped and returned.
   */
  method Process(env: Env, jobs: JobStore, results: ResultStore, jobId: Uuid, faults: StoreFaults,
                 resultId: Uuid, t1: Time, t2: Time)
    returns (err: Option<Error>)
    requires jobs.Valid() && results.Valid()
    modifies jobs, results
    ensures jobs.Valid() && results.Valid()
    ensures var found := old(jobs.FindByID(jobId, faults.findJob));
            found.Err? ==>
              && err == Some(Wrap("failed to find job", found.error))
              && jobs.rows == old(jobs.rows) && results.rows == old(results.rows)
    ensures var found := old(jobs.FindByID(jobId, faults.findJob));
            found.Ok? && faults.markProcessing.Some? ==>
              && err == Some(Wrap("failed to update job status", Wrap("failed to update evaluation job", faults.markProcessing.value)))
              && jobs.rows == old(jobs.rows) && results.rows == old(results.rows)
    ensures var found := old(jobs.FindByID(jobId, faults.findJob));
            found.Ok? && faults.markProcessing.None? ==>
              var started := MarkedProcessing(found.value, t1);
              var outcome := EvaluationOutcome(env, started, resultId, faults.saveResult);
              && started.id == jobId
              && results.rows == (if outcome.Ok? then old(results.rows)[started.id := outcome.value] else old(results.rows))
              && jobs.rows == old(jobs.rows)[started.id := if faults.markFinished.None? then Finished(started, outcome, t2) else started]
              && err == (if outcome.Err? then Some(outcome.error)
                         else if faults.markFinished.Some? then
                           Some(Wrap("failed to mark job as completed", Wrap("failed to update evaluation job", faults.markFinished.value)))
                         else None)
  {
    var found := jobs.FindByID(jobId, faults.findJob);
    if found.Err? {
      return Some(Wrap("failed to find job", found.error));
    }
    var evalJob := new EvaluationJob.Load(found.value);
    evalJob.MarkProcessing(t1);
    var e := jobs.Update(evalJob, faults.markProcessing);
    if e.Some? {
      return Some(Wrap("failed to update job status", e.value));
    }
    err := RunAndFinish(env, jobs, results, evalJob, resultId, faults.saveResult, faults.markFinished, t2);
  }

  /**
   * Process from line 105 on: run processEvaluation on the job, mark it
   * failed with the error's text or completed, and save it.
   */
  method RunAndFinish(env: Env, jobs: JobStore, results: ResultStore, evalJob: EvaluationJob, resultId: Uuid,
                      saveFault: Option<Error>, finishFault: Option<Error>, now: Time)
    returns (err: Option<Error>)
    requires jobs.Valid() && results.Valid()
    modifies jobs, results, evalJob
    ensures jobs.Valid() && results.Valid()
    ensures var started := old(evalJob.Snapshot());
            var outcome := EvaluationOutcome(env, started, resultId, saveFault);
            && results.rows == (if outcome.Ok? then old(results.rows)[started.id := outcome.value] else old(results.rows))
            && jobs.rows == (if finishFault.None? then old(jobs.rows)[started.id := Finished(started, outcome, now)] else old(jobs.rows))
            && err == (if outcome.Err? then Some(outcome.error)
                       else if finishFault.Some? then
                         Some(Wrap("failed to mark job as completed", Wrap("failed to update evaluation job", finishFault.value)))
                       else None)
  {
    err := ProcessEvaluation(env, results, evalJob.Snapshot(), resultId, saveFault);
    if err.Some? {
      evalJob.MarkFailed(Text(err.value), now);
      var _ := jobs.Update(evalJob, finishFault);
      return err;
    }
    evalJob.MarkCompleted(now);
    var e := jobs.Update(evalJob, finishFault);
    if e.Some? {
      return Some(Wrap("failed to mark job as completed", e.value));
    }
    return None;
  }
}

/**
 * The entities of the evaluation service: the evaluation job and its
 * status lifecycle, the evaluation result, uploaded documents, and the
 * chunks stored in the vector index.
 *
 * Identifiers are opaque strings (the text of a UUID) and instants are
 * integers; both are supplied by the caller where the Go code calls
 * uuid.New() or time.Now().
 */
module Domain {
  import opened Errors

  type Uuid = string
  type Time = int

  datatype JobStatus = Queued | Processing | Completed | Failed

  /** The string stored in the status column. */
  function StatusText(s: JobStatus): string
  {
    match s
    case Queued => "queued"
    case Processing => "processing"
    case Completed => "completed"
    case Failed => "failed"
  }

  predicate IsTerminal(s: JobStatus)
  {
    s == JobStatus.Completed || s == JobStatus.Failed
  }

  /** A job as the job store holds it (one row of evaluation_jobs). */
  datatype JobRecord = JobRecord(
    id: Uuid,
    jobTitle: string,
    cvId: Uuid,
    projectReportId: Uuid,
    status: JobStatus,
    errorMessage: Option<string>,
    startedAt: Option<Time>,
    completedAt: Option<Time>,
    createdAt: Time,
    updatedAt: Time)

  /** NewEvaluationJob; both of its clock readings are the instant `now`. */
  function NewJob(id: Uuid, jobTitle: string, cvId: Uuid, projectReportId: Uuid, now: Time): JobRecord
  {
    JobRecord(id, jobTitle, cvId, projectReportId, Queued, None, None, None, now, now)
  }

  /** The effect of MarkProcessing at instant now. */
  function MarkedProcessing(r: JobRecord, now: Time): JobRecord
  {
    r.(status := JobStatus.Processing, startedAt := Some(now), updatedAt := now)
  }

  /** The effect of MarkCompleted at instant now. */
  function MarkedCompleted(r: JobRecord, now: Time): JobRecord
  {
    r.(status := JobStatus.Completed, completedAt := Some(now), updatedAt := now)
  }

  /** The effect of MarkFailed(msg) at instant now. */
  function MarkedFailed(r: JobRecord, msg: string, now: Time): JobRecord
  {
    r.(status := JobStatus.Failed, errorMessage := Some(msg), completedAt := Some(now), updatedAt := now)
  }

  /**
   * The timestamp and message discipline of a job: started once it has left
   * the queue, finished once it is terminal, and carrying a message only
   * when it failed.
   */
  predicate Consistent(r: JobRecord)
  {
    && (r.startedAt.Some? <==> r.status != Queued)
    && (r.completedAt.Some? <==> IsTerminal(r.status))
    && (r.errorMessage.Some? <==> r.status == JobStatus.Failed)
  }

  /** The in-memory job that the pipeline loads, marks and saves back. */
  class EvaluationJob {
    var id: Uuid
    var jobTitle: string
    var cvId: Uuid
    var projectReportId: Uuid
    var status: JobStatus
    var errorMessage: Option<string>
    var startedAt: Option<Time>
    var completedAt: Option<Time>
    var createdAt: Time
    var updatedAt: Time

    /** The row this object would be saved as. */
    function Snapshot(): JobRecord
      reads this
    {
      JobRecord(id, jobTitle, cvId, projectReportId, status, errorMessage, startedAt, completedAt, createdAt, updatedAt)
    }

    /** NewEvaluationJob */
    constructor (id: Uuid, jobTitle: string, cvId: Uuid, projectReportId: Uuid, now: Time)
      ensures Snapshot() == NewJob(id, jobTitle, cvId, projectReportId, now)
    {
      this.id := id;
      this.jobTitle := jobTitle;
      this.cvId := cvId;
      this.projectReportId := projectReportId;
      this.status := Queued;
      this.errorMessage := None;
      this.startedAt := None;
      this.completedAt := None;
      this.createdAt := now;
      this.updatedAt := now;
    }

    /** A fresh object holding a stored row, as the job store's FindByID returns. */
    constructor Load(r: JobRecord)
      ensures Snapshot() == r
    {
      id := r.id;
      jobTitle := r.jobTitle;
      cvId := r.cvId;
      projectReportId := r.projectReportId;
      status := r.status;
      errorMessage := r.errorMessage;
      startedAt := r.startedAt;
      completedAt := r.completedAt;
      createdAt := r.createdAt;
      updatedAt := r.updatedAt;
    }

    /** Status becomes processing; StartedAt and UpdatedAt become the same instant; nothing else changes. */
    method MarkProcessing(now: Time)
      modifies this
      ensures Snapshot() == MarkedProcessing(old(Snapshot()), now)
      ensures status == JobStatus.Processing && startedAt == Some(now) && updatedAt == now
      ensures errorMessage == old(errorMessage) && completedAt == old(completedAt)
    {
      status := JobStatus.Processing;
      startedAt := Some(now);
      updatedAt := now;
    }

    /** Status becomes completed; CompletedAt and UpdatedAt become the same instant; nothing else changes. */
    method MarkCompleted(now: Time)
      modifies this
      ensures Snapshot() == MarkedCompleted(old(Snapshot()), now)
      ensures status == JobStatus.Completed && completedAt == Some(now) && updatedAt == now
      ensures errorMessage == old(errorMessage) && startedAt == old(startedAt)
    {
      status := JobStatus.Completed;
      completedAt := Some(now);
      updatedAt := now;
    }

    /** Status becomes failed with message msg; CompletedAt and UpdatedAt become the same instant; nothing else changes. */
    method MarkFailed(msg: string, now: Time)
      modifies this
      ensures Snapshot() == MarkedFailed(old(Snapshot()), msg, now)
      ensures status == JobStatus.Failed && errorMessage == Some(msg)
      ensures completedAt == Some(now) && updatedAt == now && startedAt == old(startedAt)
    {
      status := JobStatus.Failed;
      errorMessage := Some(msg);
      completedAt := Some(now);
      updatedAt := now;
    }
  }

  /** A new job is queued, carries no message or timestamps yet, and keeps its title and references verbatim. */
  lemma NewJobIsQueued(id: Uuid, jobTitle: string, cvId: Uuid, projectReportId: Uuid, now: Time)
    ensures var j := NewJob(id, jobTitle, cvId, projectReportId, now);
            && j.status == Queued
            && j.errorMessage == None && j.startedAt == None && j.completedAt == None
            && j.id == id && j.jobTitle == jobTitle && j.cvId == cvId && j.projectReportId == projectReportId
            && Consistent(j)
  {
  }

  /** Every step of queued -> processing -> completed keeps the timestamp discipline and never sets a message. */
  lemma SuccessPathConsistent(id: Uuid, jobTitle: string, cvId: Uuid, projectReportId: Uuid, t0: Time, t1: Time, t2: Time)
    ensures var j0 := NewJob(id, jobTitle, cvId, projectReportId, t0);
            var j1 := MarkedProcessing(j0, t1);
            var j2 := MarkedCompleted(j1, t2);
            && Consistent(j0) && Consistent(j1) && Consistent(j2)
            && j0.errorMessage == None && j1.errorMessage == None && j2.errorMessage == None
            && j1.startedAt == Some(t1) && j2.startedAt == Some(t1) && j2.completedAt == Some(t2)
  {
  }

  /** Every step of queued -> processing -> failed keeps the timestamp discipline; the message is the one given. */
  lemma FailurePathConsistent(id: Uuid, jobTitle: string, cvId: Uuid, projectReportId: Uuid, msg: string, t0: Time, t1: Time, t2: Time)
    ensures var j0 := NewJob(id, jobTitle, cvId, projectReportId, t0);
            var j1 := MarkedProcessing(j0, t1);
            var j2 := MarkedFailed(j1, msg, t2);
            && Consistent(j1) && Consistent(j2)
            && j2.errorMessage == Some(msg) && j2.startedAt == Some(t1) && j2.completedAt == Some(t2)
  {
  }

  /** From a consistent state, each forward transition of the lifecycle gives a consistent state. */
  lemma ForwardTransitionsKeepConsistency(r: JobRecord, msg: string, now: Time)
    requires Consistent(r)
    ensures r.status == Queued ==> Consistent(MarkedProcessing(r, now))
    ensures r.status == JobStatus.Processing ==> Consistent(MarkedCompleted(r, now)) && Consistent(MarkedFailed(r, msg, now))
  {
  }

  /**
   * The Mark methods do not look at the current status: marking a failed job
   * completed gives a completed job that still carries the failure message,
   * and marking a queued job completed gives a finished job that never started.
   */
  lemma MarksIgnoreCurrentStatus(r: JobRecord, msg: string, t1: Time, t2: Time)
    ensures var c := MarkedCompleted(MarkedFailed(r, msg, t1), t2);
            c.status == JobStatus.Completed && c.errorMessage == Some(msg) && !Consistent(c)
    ensures r.status == Queued && Consistent(r) ==> !Consistent(MarkedCompleted(r, t1))
  {
  }

  /** The four statuses have four different stored texts. */
  lemma StatusTextInjective(a: JobStatus, b: JobStatus)
    ensures StatusText(a) == StatusText(b) ==> a == b
  {
  }

  /** One row of evaluation_results: the scores and feedback of a completed job. */
  datatype EvaluationResult = EvaluationResult(
    id: Uuid,
    jobId: Uuid,
    cvMatchRate: real,
    cvFeedback: string,
    projectScore: real,
    projectFeedback: string,
    overallSummary: string)

  datatype DocumentType = CV | ProjectReport | JobDescription | CaseStudyBrief | CVRubric | ProjectRubric

  /** The string value of each document type, which also names its upload directory. */
  function DocumentTypeText(t: DocumentType): string
  {
    match t
    case CV => "cv"
    case ProjectReport => "project_report"
    case JobDescription => "job_description"
    case CaseStudyBrief => "case_study_brief"
    case CVRubric => "cv_rubric"
    case ProjectRubric => "project_rubric"
  }

  /** An uploaded file as the document store records it. */
  datatype Document = Document(
    id: Uuid,
    docType: DocumentType,
    filename: string,
    filePath: string,
    fileSize: int,
    mimeType: string)

  /** The values the modelled code puts into a chunk's metadata map. */
  datatype MetaValue = MetaInt(n: int) | MetaText(s: string) | MetaBool(b: bool)

  type Metadata = map<string, MetaValue>

  /** A query embedding or a stored chunk's embedding. */
  type Embedding = seq<real>

  /** One chunk of a reference document in the vector index. */
  datatype VectorDocument = VectorDocument(
    docType: DocumentType,
    content: string,
    embedding: Embedding,
    metadata: Metadata)
}

# A CV-evaluation service, modelled in Dafny

This project models the sequential core of a CV-evaluation service written in Go. The service scores a
candidate's CV and project report against reference documents, using retrieval from a
vector index and an LLM. The model covers:

- **Job lifecycle** (`Domain`, domain.dfy). `EvaluationJob` is a class whose `Mark*`
  methods update its fields in place. `JobRecord` is the row it is saved as. Consistency of
  the timestamps and the error message is proved along the success and failure paths.
- **Evaluation use case** (`Evaluation`, evaluation.dfy).
  - `CreateEvaluationJob` creates a job only after both of its documents are found.
  - `GetEvaluationJob` reads a job and, for a completed job, its result.
  - `Process`, `ProcessEvaluation` and their helpers run the pipeline in its fixed order:
    two lookups, two extractions, four retrievals, two scorings, a summary, the result row,
    and the final status.
  - The job and result tables are classes holding maps. Collaborators are functions in `Env`.
- **Chunking** (`Chunking`, chunking.dfy).
  - `ChunkText` is a rune window with overlap. Every chunk is proved to be the window at
    offset i·step.
  - `SplitIntoSentences` hand-codes the regular expression `[^.!?]+[.!?]?`.
  - `ChunkBySentence` packs sentences greedily under a byte limit and carries one sentence
    into the next chunk. It is proved equal to a fold over sentence groups (`Groups`), about
    which the packing, overlap and no-loss properties are proved.
- **Ingestion and search** (`Vectors`, vectors.dfy).
  - `IngestDocument` chunks, batch-embeds and stores, and is proved against the plan
    `IngestPlan`.
  - `SearchSimilar` embeds a query and searches with the same type and limit.
- **String cleaners and validators**:
  - `Pdf` (pdf.dfy): `cleanText`, and the page loop of `ExtractText`;
  - `Llm` (llm.dfy): `cleanJSONResponse`, the response checks and the score ranges;
  - `Documents` (documents.dfy): `isPdf`, and the ordering of the steps in `UploadDocument`;
  - `Errors` (errors.dfy): `AppError` and the sentinel errors.
- **Go's standard library as used by the core** (`GoStrings`, go_strings.dfy):
  - `strings.TrimSpace` with `unicode.IsSpace`, `Split`, `Join`, and `ReplaceAll` with an
    empty replacement;
  - UTF-8 encoding, so that `len` counts bytes.

Strings are sequences of Unicode scalar values. A Go string is their UTF-8 encoding
(`Encode`), and `len(s)` is `ByteLen(s)`. The two 500-byte query cuts in processEvaluation
work on the encoded bytes, so search queries are byte sequences. Such a cut can end inside a
multi-byte character.

Errors are values:

- a sentinel;
- `Wrapped`, which is `fmt.Errorf` with `%w` (`Wrap` when there is no suffix);
- `Message`, which is `fmt.Errorf` without `%w`;
- an `AppError`.

`Text` is `err.Error()` and `Unwrap` is `errors.Unwrap`.

## Model

| member | source | states |
|---|---|---|
| Errors.NewAppError | pkg/errors/errors.go:42-48 | the code and message are stored verbatim and Unwrap returns the given cause |
| Errors.Wrap | internal/usecase/evaluation_usecase.go:54 | a %w error unwraps to its cause and its text is the prefix, ": " and the cause's text |
| Errors.NewAppErrorRoundTrip | pkg/errors/errors.go:30-40 | Error() is the message alone without a cause, else message + ": " + cause text; Unwrap returns the cause unchanged |
| Errors.NotFoundSentinelsDiffer | pkg/errors/errors.go:10-19 | ErrNotFound and ErrJobNotFound are different values with different texts |
| GoStrings.TrimSpace | internal/service/chunk_service.go:84 | the result has no leading or trailing white space and is no longer than the input |
| GoStrings.TrimSpaceShape | internal/service/chunk_service.go:84 | TrimSpace cuts a slice whose surroundings on both sides are all white space |
| GoStrings.TrimSpaceFixed | internal/service/pdf_service.go:63 | TrimSpace leaves a string unchanged exactly when it is already trimmed |
| GoStrings.TrimSpaceEmpty | internal/service/pdf_service.go:58 | TrimSpace gives "" exactly when the string is all white space |
| GoStrings.TrimSpaceSnoc | internal/service/pdf_service.go:44 | a trailing white-space character does not change TrimSpace |
| GoStrings.Split | internal/service/pdf_service.go:60 | strings.Split gives at least one piece and no piece holds the separator |
| GoStrings.JoinSplit | internal/service/pdf_service.go:60-69 | joining the pieces of Split with the separator gives back the string |
| GoStrings.SplitJoin | internal/service/pdf_service.go:60-69 | splitting a join of separator-free pieces gives back the pieces |
| GoStrings.TrimmedNonBlank | internal/service/pdf_service.go:62-67 | the kept pieces are non-empty and trimmed, and there are no more of them than the input pieces |
| GoStrings.TrimmedNonBlankEmpty | internal/service/pdf_service.go:62-67 | nothing is kept exactly when every piece is white space |
| GoStrings.JoinTrimmed | internal/service/pdf_service.go:69 | joining non-empty trimmed pieces gives a non-empty trimmed string that starts and ends as the first and last pieces do |
| GoStrings.RemoveAllAbsent | internal/service/llm_service.go:133-134 | ReplaceAll with "" changes nothing when the pattern does not occur |
| GoStrings.ByteLenEncode | internal/service/chunk_service.go:90 | ByteLen counts the bytes of the UTF-8 encoding |
| GoStrings.EncodeAppend | internal/usecase/evaluation_usecase.go:150 | encoding a concatenation concatenates the encodings |
| GoStrings.AsciiBytesEncode | internal/usecase/evaluation_usecase.go:157 | ASCII text encodes to one byte per character |
| GoStrings.ToLower | internal/usecase/document_usecase.go:108 | the length is kept, each ASCII capital becomes its small letter and every other character is kept |
| Domain.EvaluationJob.constructor | internal/domain/evaluation_job.go:33-43 | a new job is the queued record with the given title and references and no message or timestamps |
| Domain.EvaluationJob.MarkProcessing | internal/domain/evaluation_job.go:45-50 | status becomes processing, StartedAt and UpdatedAt the same instant, and nothing else changes |
| Domain.EvaluationJob.MarkCompleted | internal/domain/evaluation_job.go:52-57 | status becomes completed, CompletedAt and UpdatedAt the same instant, and StartedAt and the message are kept |
| Domain.EvaluationJob.MarkFailed | internal/domain/evaluation_job.go:59-65 | status becomes failed with the message, CompletedAt and UpdatedAt the same instant, and StartedAt is kept |
| Domain.NewJobIsQueued | internal/domain/evaluation_job.go:33-43 | a new job is queued, has no message or timestamps, keeps its title and ids, and is consistent |
| Domain.SuccessPathConsistent | internal/domain/evaluation_job.go:33-57 | each step of queued, processing, completed is consistent and never carries a message |
| Domain.FailurePathConsistent | internal/domain/evaluation_job.go:33-65 | each step of processing, failed is consistent and the message is the given one |
| Domain.ForwardTransitionsKeepConsistency | internal/domain/evaluation_job.go:45-65 | every forward transition from a consistent state gives a consistent state |
| Domain.MarksIgnoreCurrentStatus | internal/domain/evaluation_job.go:52-65 | marks do not check the status: completing a failed job keeps its message, and completing a queued job breaks consistency |
| Domain.StatusTextInjective | internal/domain/evaluation_job.go:12-17 | the four statuses have four different texts |
| Chunking.EffectiveChunkSize | internal/service/chunk_service.go:26-28 | the size used is positive: a positive size is kept and a non-positive one becomes 1000 |
| Chunking.EffectiveOverlap | internal/service/chunk_service.go:29-31 | the overlap used is never negative: one in [0, size) is kept and any other becomes 200 |
| Chunking.StepPositiveIff | internal/service/chunk_service.go:29-31 | the step size - overlap is positive exactly when the overlap was in range or the size exceeds 200 |
| Chunking.StepNotPositiveExample | internal/service/chunk_service.go:60 | chunkSize 150 with overlap -1 gives step -50 and a second start of -50; 200 with 200 gives step 0 and a start that stays 0 |
| Chunking.LoopStartAsWritten | internal/service/chunk_service.go:43-61 | for a non-empty text and a step that is not positive, the start after any number of turns is still below the text length, so the loop test never fails; with step 0 the start stays 0 (no end), with a negative step every later start is negative (the slice of the second turn panics) |
| Chunking.ChunkText | internal/service/chunk_service.go:25-65 | empty text gives no chunks; otherwise chunk i is the trimmed window at offset i·step with index i, the last window starts inside the text and the next offset is past it |
| Chunking.Window | internal/service/chunk_service.go:45-58 | one loop turn builds exactly the window chunk at the offset |
| Chunking.OffsetIsProduct | internal/service/chunk_service.go:60-61 | the offset after k steps is k·step |
| Chunking.OffsetMonotone | internal/service/chunk_service.go:60 | offsets grow with the index, strictly when the step is positive |
| Chunking.AreWindowsSnoc | internal/service/chunk_service.go:44-62 | appending the next window keeps every chunk the window at its offset |
| Chunking.WindowsCoverText | internal/service/chunk_service.go:44-62 | every rune before the last offset lies in some window |
| Chunking.WindowBounds | internal/service/chunk_service.go:45-58 | the metadata records start and end, with start < end <= the rune count and end - start <= the size |
| Chunking.ReplaceNewlines | internal/service/chunk_service.go:138 | each newline becomes a space, every other character is kept, and the length is unchanged |
| Chunking.RunLength | internal/service/chunk_service.go:134 | the run holds no terminator and stops at the first terminator or at the end |
| Chunking.MatchesShape | internal/service/chunk_service.go:134-140 | every regex match is non-empty, holds a terminator only at its end, and holds no newline when the text has none |
| Chunking.TrimKeepsMatchShape | internal/service/chunk_service.go:143-147 | trimming a match keeps those properties |
| Chunking.SplitIntoSentences | internal/service/chunk_service.go:137-150 | the loop returns exactly the trimmed non-empty matches of the regex on the newline-free text |
| Chunking.SentencesShape | internal/service/chunk_service.go:137-150 | every sentence is non-empty and trimmed, holds no newline, and holds a terminator only as its last character |
| Chunking.KeptPiecesShape | internal/service/chunk_service.go:142-148 | keeping trimmed non-empty pieces keeps the terminator and newline properties |
| Chunking.StrayRun | internal/service/chunk_service.go:134-140 | a terminator-free run is kept whole by the matcher |
| Chunking.MatchesKeepText | internal/service/chunk_service.go:134-140 | the matches, concatenated, are the text less the terminators that start no match: a leading one or one right after another terminator |
| Chunking.EffectiveLimit | internal/service/chunk_service.go:68-70 | the limit used is positive: a positive limit is kept and a non-positive one becomes 1000, the same fallback as the chunk size of ChunkText |
| Chunking.AddSentence | internal/service/chunk_service.go:89-121 | adding a sentence keeps every group non-empty |
| Chunking.Groups | internal/service/chunk_service.go:83-122 | every sentence group is non-empty |
| Chunking.ChunksOf | internal/service/chunk_service.go:92-95 | chunk i is group i joined with spaces and trimmed, with index i and no metadata |
| Chunking.CloseKeepsWellPacked | internal/service/chunk_service.go:91-114 | closing a group because the next sentence does not fit keeps the groups well packed |
| Chunking.CloseOverlapping | internal/service/chunk_service.go:100-114 | the new group starts with the last sentence of the closed one |
| Chunking.CloseClosedWhenFull | internal/service/chunk_service.go:90-91 | a group is closed only when a space and the next sentence would pass the limit |
| Chunking.ExtendKeepsWellPacked | internal/service/chunk_service.go:117-121 | adding a fitting sentence to the open group keeps the groups well packed |
| Chunking.ExtendNonBlank | internal/service/chunk_service.go:84-87 | groups keep holding only non-empty trimmed sentences |
| Chunking.ExtendOverlapping | internal/service/chunk_service.go:117-121 | growing the open group keeps the overlap links |
| Chunking.ExtendClosedWhenFull | internal/service/chunk_service.go:90-91 | growing the open group keeps the reason every earlier group was closed |
| Chunking.ExtendWithinLimit | internal/service/chunk_service.go:90-91 | a group grown by a checked sentence stays within the limit |
| Chunking.AddSentenceWellPacked | internal/service/chunk_service.go:83-121 | each sentence keeps the groups non-blank, overlapping, closed only when full, and within the limit except for unchecked sentences |
| Chunking.GroupsWellPacked | internal/service/chunk_service.go:83-122 | the groups of any sentence list are well packed |
| Chunking.UnoverlappedSnoc | internal/service/chunk_service.go:100-114 | a new group contributes its sentences after the carried one |
| Chunking.UnoverlappedExtendLast | internal/service/chunk_service.go:117-121 | adding to the open group adds that sentence |
| Chunking.UnoverlappedGrowLast | internal/service/chunk_service.go:117-121 | growing the last group adds that sentence |
| Chunking.AddSentenceUnoverlapped | internal/service/chunk_service.go:89-121 | after adding a sentence, the groups without their carried sentences are the old ones plus it |
| Chunking.GroupsKeepSentences | internal/service/chunk_service.go:83-122 | no sentence is lost or duplicated: the groups less the carried sentences are exactly the trimmed non-empty sentences in order |
| Chunking.ChunkContents | internal/service/chunk_service.go:92-93 | a group's join is non-empty and trimmed, so trimming the chunk changes nothing |
| Chunking.ChunkStartsWithOverlap | internal/service/chunk_service.go:100-114 | every chunk after the first begins with the last sentence of the previous chunk and a space |
| Chunking.GroupsStep | internal/service/chunk_service.go:83-84 | the groups of one more sentence add that sentence trimmed |
| Chunking.StartOpen | internal/service/chunk_service.go:117-121 | the first sentence opens the first group |
| Chunking.CloseOpen | internal/service/chunk_service.go:91-114 | the flush in the loop is AddSentence's closing case |
| Chunking.ExtendOpen | internal/service/chunk_service.go:117-121 | the append in the loop is AddSentence's joining case |
| Chunking.JoinedLength | internal/service/chunk_service.go:117-124 | the builder's byte length is positive exactly when the open sentence list is non-empty |
| Chunking.AdvanceStep | internal/service/chunk_service.go:84-121 | one loop turn keeps the loop's state and is AddSentence on the groups it stands for |
| Chunking.AdvanceClose | internal/service/chunk_service.go:90-114 | a sentence that does not fit a non-empty open group closes it and reopens with the carried sentence, which is AddSentence's closing case |
| Chunking.AdvanceExtend | internal/service/chunk_service.go:117-121 | a sentence that fits, or the first sentence, joins the open group, which is AddSentence's joining case |
| Chunking.LoopStep | internal/service/chunk_service.go:83-122 | after i + 1 turns the loop holds the groups of the first i + 1 sentences |
| Chunking.Feed | internal/service/chunk_service.go:84-121 | one turn updates the chunks, builder, sentence list and index as Advance does on the groups |
| Chunking.Flush | internal/service/chunk_service.go:92-114 | the flush emits the open group as the next chunk and reopens with its last sentence |
| Chunking.ChunkBySentence | internal/service/chunk_service.go:67-132 | the chunks are exactly ChunksOf(Groups(Sentences(text), limit)) with the limit normalised |
| Chunking.ChunkBySentenceShape | internal/service/chunk_service.go:83-98 | chunk k has index k and is its group joined with spaces, non-empty and trimmed |
| Pdf.CleanLines | internal/service/pdf_service.go:60-67 | every kept line is non-empty and trimmed |
| Pdf.CleanText | internal/service/pdf_service.go:57-70 | the loop returns the trimmed non-blank lines of the trimmed text joined with "\n" |
| Pdf.CleanLinesNoNewline | internal/service/pdf_service.go:60-67 | no kept line holds a newline |
| Pdf.CleanedLines | internal/service/pdf_service.go:60-69 | splitting non-empty output at "\n" gives back the kept lines in order, each non-empty and trimmed |
| Pdf.CleanedEmpty | internal/service/pdf_service.go:48-51 | the cleaned text is "" exactly when the input is all white space |
| Pdf.CleanedIdempotent | internal/service/pdf_service.go:57-70 | cleaning twice is cleaning once |
| Pdf.ExtractText | internal/service/pdf_service.go:21-55 | an open error is wrapped; otherwise the cleaned page text is returned, or an error when it is empty |
| Pdf.ExtractTextOutcome | internal/service/pdf_service.go:48-53 | extraction succeeds exactly when the page text is not all white space, and then every line is non-empty and trimmed |
| Pdf.SkippedPagesAddNothing | internal/service/pdf_service.go:32-45 | a null page or a page that fails to extract adds nothing to the text |
| Llm.GenerateContent | internal/service/llm_service.go:114-130 | call errors pass through; success needs a candidate whose content has parts, and the result is the response text |
| Llm.CleanJson | internal/service/llm_service.go:132-136 | the result has no leading or trailing white space |
| Llm.NoFenceAfterRemoval | internal/service/llm_service.go:134 | after removing every "```" none is left |
| Llm.CleanJsonNoFence | internal/service/llm_service.go:132-136 | the cleaned response holds no "```" |
| Llm.CleanJsonIdempotent | internal/service/llm_service.go:132-136 | cleaning twice is cleaning once |
| Llm.CleanJsonWithoutBackticks | internal/service/llm_service.go:132-136 | a response without backticks is only trimmed |
| Llm.EvaluateCV | internal/service/llm_service.go:51-72 | success exactly when the model answered, the answer parsed and 0 <= rate <= 1 (ends included); the value is the parsed one, and a model error is wrapped |
| Llm.EvaluateProject | internal/service/llm_service.go:74-95 | success exactly when the model answered, the answer parsed and 1 <= score <= 5 (ends included); the value is the parsed one |
| Llm.FinalSummary | internal/service/llm_service.go:97-112 | success exactly when the model answered and the answer parsed; the summary is the parsed one, trimmed |
| Documents.Ext | internal/usecase/document_usecase.go:51 | the extension is a suffix of the name, empty or starting with its only '.', and holding no '/' |
| Documents.ExtFromLastDot | internal/usecase/document_usecase.go:108 | the extension runs from the last '.' |
| Documents.ExtWithoutDot | internal/usecase/document_usecase.go:108 | a name without '.' has no extension |
| Documents.IsPdfCases | internal/usecase/document_usecase.go:107-115 | isPdf holds exactly when the extension is ".pdf" in any letter case and the Content-Type is exactly application/pdf |
| Documents.UpperCasePdfPasses | internal/usecase/document_usecase.go:108 | "cv.PDF" passes |
| Documents.DoubleExtensionRejected | internal/usecase/document_usecase.go:108-110 | "cv.pdf.exe" is rejected |
| Documents.NoExtensionRejected | internal/usecase/document_usecase.go:108-110 | "cv" is rejected |
| Documents.UploadDocument | internal/usecase/document_usecase.go:33-80 | a non-PDF upload creates nothing and, once opened, gives ErrInvalidType; a stored document is a PDF at UploadDir/type/fileId+ext, with the upload's name and Content-Type, and storing it was the last action |
| Documents.FailedStoreRemovesFile | internal/usecase/document_usecase.go:73-77 | when the record is refused, the store's error is returned unchanged and the file created is removed as the last action |
| Vectors.VectorStore.Create | internal/repository/vector_repository.go:20-26 | a row is appended unless the database refuses it; the refusal is wrapped |
| Vectors.Decimal | internal/usecase/vector_usecase.go:59 | %d writes a non-empty string of decimal digits whose value (DigitsValue, read most significant first) is n, with no leading zero when n >= 10 |
| Vectors.Contents | internal/usecase/vector_usecase.go:48-51 | item i is chunk i's content, and the lengths agree |
| Vectors.ChunkDocs | internal/usecase/vector_usecase.go:64-75 | row i pairs chunk i with embedding i, the document type and the chunk's metadata |
| Vectors.Stored | internal/usecase/vector_usecase.go:63-83 | the accepted rows are no more than those offered |
| Vectors.IngestDocument | internal/usecase/vector_usecase.go:29-90 | an early error stores nothing; otherwise the accepted rows are appended in order, and the call fails only when none was accepted |
| Vectors.StoreRows | internal/usecase/vector_usecase.go:42-89 | empty chunks, a batch error or a count mismatch stop before any store; otherwise the same as IngestDocument |
| Vectors.CollectContents | internal/usecase/vector_usecase.go:48-51 | the loop gives the chunk contents in order |
| Vectors.StoreChunks | internal/usecase/vector_usecase.go:62-83 | the store loop appends exactly the accepted rows in order and counts them |
| Vectors.StoreChunk | internal/usecase/vector_usecase.go:66-82 | one turn offers chunk i with its merged metadata and appends it exactly when accepted |
| Vectors.StoredSnoc | internal/usecase/vector_usecase.go:77-82 | one more row offered is kept exactly when accepted |
| Vectors.StoredAll | internal/usecase/vector_usecase.go:63-83 | every row offered is stored exactly when the database refuses none |
| Vectors.StoredNone | internal/usecase/vector_usecase.go:63-87 | no row is stored, so the call fails, exactly when the database refuses every row |
| Vectors.RowsPlanRow | internal/usecase/vector_usecase.go:67-75 | row i has chunk i's content, and its metadata is the caller's plus chunk_index and chunk_length, which override same-named keys |
| Vectors.IngestRows | internal/usecase/vector_usecase.go:42-75 | every planned row has the document type, non-empty trimmed content, the caller's keys plus chunk_index = i and chunk_length = its byte length, and the other caller values |
| Vectors.SearchSimilar | internal/usecase/vector_usecase.go:92-106 | success exactly when embedding and search succeed; the result is the search with the same type and limit, and errors wrap their causes |
| Evaluation.JobStore.Create | internal/repository/evaluation_repository.go:22-28 | the job is stored under its id, or the table is unchanged and the database error wrapped; every row stays keyed by its own id (Valid) |
| Evaluation.JobStore.FindByID | internal/repository/evaluation_repository.go:30-41 | a present row is returned; a missing one is ErrJobNotFound |
| Evaluation.JobStore.Update | internal/repository/evaluation_repository.go:43-49 | the object's fields are saved under its id, or the table is unchanged; every row stays keyed by its own id (Valid) |
| Evaluation.ResultStore.Create | internal/repository/evaluation_repository.go:69-75 | the result is stored under its job id, or the table is unchanged; every result stays keyed by its job's id (Valid) |
| Evaluation.ResultStore.FindByJobID | internal/repository/evaluation_repository.go:77-88 | a present row is returned; a missing one is ErrNotFound |
| Evaluation.CreateEvaluationJob | internal/usecase/evaluation_usecase.go:51-68 | a failed lookup of the CV, then of the report, returns its wrapped error and stores nothing; a refused insert returns the doubly wrapped error; success exactly when both documents exist and the insert is accepted, and then a new queued job is stored under its id and returned |
| Evaluation.GetEvaluationJob | internal/usecase/evaluation_usecase.go:70-86 | no error exactly when the job lookup succeeds and the job is not completed, or is completed with its result lookup succeeding and its result row present; a missing job is ErrJobNotFound with no job; without an error the stored job is returned, and a result exactly for a completed job whose result row exists |
| Evaluation.MissingResultIsAnError | internal/usecase/evaluation_usecase.go:78-83 | a completed job without a result row gives ErrNotFound although the job was found |
| Evaluation.GetEvaluationJobCorrected | internal/usecase/evaluation_usecase.go:76-85 | an error only when a lookup failed; a missing job is ErrJobNotFound; a completed job without a result gives the job and no result |
| Evaluation.Min | internal/usecase/evaluation_usecase.go:205-210 | the result is one of the two and no larger than either |
| Evaluation.Head | internal/usecase/evaluation_usecase.go:150 | the query cut is the first min(500, len) bytes of the encoded text, so it never runs out of range |
| Evaluation.QueryShape | internal/usecase/evaluation_usecase.go:150 | the job-description query is title + " " + at most 500 bytes of the CV, the whole CV when it is that short |
| Evaluation.DocContents | internal/usecase/evaluation_usecase.go:212-218 | item i is document i's content, and the lengths agree |
| Evaluation.ChunkDocsContents | internal/usecase/evaluation_usecase.go:212-218 | the contents extracted from the rows built for a document's chunks are those chunks' contents, in order |
| Evaluation.ExtractContent | internal/usecase/evaluation_usecase.go:212-218 | the loop gives exactly DocContents |
| Evaluation.OutcomeBounds | internal/usecase/evaluation_usecase.go:196-199 | a stored result belongs to its job and carries a match rate in [0, 1], a score in [1, 5] and a trimmed summary |
| Evaluation.ExtractionErrors | internal/usecase/evaluation_usecase.go:138-147 | a CV extraction error is copied as text and does not unwrap, while a report extraction error wraps its cause |
| Evaluation.AssessFromTexts | internal/usecase/evaluation_usecase.go:125-150 | once both lookups and both extractions have succeeded, the rest of the pipeline runs on the two extracted texts |
| Evaluation.AssessCVOkIff | internal/usecase/evaluation_usecase.go:149-167 | the CV steps succeed exactly when the job-description search (top 5), the CV-rubric search (top 3) and the CV evaluation on their contents succeed, and they give that evaluation |
| Evaluation.AssessProjectOkIff | internal/usecase/evaluation_usecase.go:169-187 | the project steps succeed exactly when the case-study search (top 5), the project-rubric search (top 3) and the project evaluation on their contents succeed, and they give that evaluation |
| Evaluation.OutcomeOkIff | internal/usecase/evaluation_usecase.go:122-203 | a result is stored exactly when both lookups, both extractions, the CV steps, the project steps, the summary and the save succeed, and it carries exactly that match rate, CV feedback, project score, project feedback and summary, for this job |
| Evaluation.CVLookupFails | internal/usecase/evaluation_usecase.go:126-129 | a failed CV lookup is the outcome, wrapped as "failed to get cv document", whatever the later collaborators return |
| Evaluation.ReportLookupFails | internal/usecase/evaluation_usecase.go:132-135 | after the CV lookup, a failed report lookup is the outcome, wrapped as "failed to get project report document" |
| Evaluation.CVExtractionFails | internal/usecase/evaluation_usecase.go:138-141 | after both lookups, a failed CV extraction is the outcome as the message "failed to extract cv text: " and its text |
| Evaluation.ReportExtractionFails | internal/usecase/evaluation_usecase.go:144-147 | after the CV extraction, a failed report extraction is the outcome, wrapped as "failed to extract project text" |
| Evaluation.JobDescriptionSearchFails | internal/usecase/evaluation_usecase.go:150-153 | with both texts at hand, a failed job-description search is the outcome, wrapped as "failed to search job description" |
| Evaluation.CVRubricSearchFails | internal/usecase/evaluation_usecase.go:157-160 | after the job-description search, a failed CV-rubric search is the outcome, wrapped as "failed to search cv rubric" |
| Evaluation.CVEvaluationFails | internal/usecase/evaluation_usecase.go:164-167 | after both CV searches, a failed CV evaluation on their contents is the outcome, wrapped as "failed to evaluate cv" |
| Evaluation.CaseStudySearchFails | internal/usecase/evaluation_usecase.go:170-173 | after the CV steps, a failed case-study search is the outcome, wrapped as "failed to search case study brief" |
| Evaluation.ProjectRubricSearchFails | internal/usecase/evaluation_usecase.go:177-180 | after the case-study search, a failed project-rubric search is the outcome, wrapped as "failed to search project rubric" |
| Evaluation.ProjectEvaluationFails | internal/usecase/evaluation_usecase.go:184-187 | after both project searches, a failed project evaluation on their contents is the outcome, wrapped as "failed to evaluate project" |
| Evaluation.SummaryFails | internal/usecase/evaluation_usecase.go:190-193 | after the CV and project steps, a failed summary is the outcome, wrapped as "failed to generate summary" |
| Evaluation.SaveFails | internal/usecase/evaluation_usecase.go:196-199 | after every other step, a failed save is the outcome, wrapped as "failed to save evaluation result" around "failed to create evaluation result" |
| Evaluation.FinishedRow | internal/usecase/evaluation_usecase.go:106-117 | the saved row is completed exactly when the pipeline succeeded, else failed with the error's text; a queued consistent job ends consistent |
| Evaluation.ProcessEvaluation | internal/usecase/evaluation_usecase.go:122-203 | the result row is written exactly when EvaluationOutcome succeeds, under the job's id; otherwise the table is unchanged and the outcome's error is returned |
| Evaluation.ProcessTexts | internal/usecase/evaluation_usecase.go:149-193 | the retrieval and scoring steps compute AssessTexts |
| Evaluation.ProcessCV | internal/usecase/evaluation_usecase.go:149-167 | the job-description search (5), the CV rubric search (3) and EvaluateCV compute AssessCV |
| Evaluation.ProcessProject | internal/usecase/evaluation_usecase.go:169-187 | the case-study search (5), the project rubric search (3) and EvaluateProject compute AssessProject |
| Evaluation.Process | internal/usecase/evaluation_usecase.go:88-120 | a failed load or processing update changes nothing and runs no step; otherwise the job loaded is the one asked for, the result (under that job id) and final status are saved as the pipeline decided and the pipeline's error is returned; both tables stay keyed by job id |
| Evaluation.RunAndFinish | internal/usecase/evaluation_usecase.go:105-119 | the job is saved failed with the pipeline error's text or completed; the error of saving the failed status is dropped, and a failed completed-status save is wrapped |

## Findings

| source | as written | input that shows it | evidently intended | confidence | as-written member | corrected member |
|---|---|---|---|---|---|---|
| internal/usecase/evaluation_usecase.go:80 | a failed result lookup is returned unless it equals ErrJobNotFound, but the lookup reports a missing row as ErrNotFound | a completed job whose evaluation_results row is missing, with no database failure. Process stores the result before it marks a job completed, and a failed save marks the job failed, so this arises only when a result row is lost outside these use cases | compare with ErrNotFound, so the job is returned with no result, as the handler's `result != nil` check expects | medium, not executed | Evaluation.MissingResultIsAnError | Evaluation.GetEvaluationJobCorrected |
| internal/service/chunk_service.go:29-31 | an overlap out of range is replaced by 200 whatever the chunk size, so for a size of at most 200 the step chunkSize - overlap is not positive; the loop then never ends (step 0) or slices runes[-50:min(100, n)] of its n runes on its second turn (step < 0), which panics | ChunkText of a non-empty text with chunkSize 150 and overlap -1 (step -50), or chunkSize 200 and overlap 200 (step 0) | the window advances on every turn, so the loop ends after at most one window per step | high, not executed | Chunking.LoopStartAsWritten | Chunking.ChunkText |

## Left out

- internal/service/job_queue.go: the worker pool, channel, cancellation and enqueue timeout are about concurrency.
- Timeouts and contexts: `Process` uses `context.WithCancel`, and the stored job timeout is never applied.
- Logging is left out.
- Repository internals (gorm, pgvector ordering, migrations): the tables are maps. A database failure is a parameter of each call (`StoreFaults`, `fault`). Database constraints such as the unique job_id are not modelled.
- The genai client, json.Unmarshal, the prompt templates and `%f` formatting are collaborators in `Llm.Model`: `call`, `parse*` and `formatFloat`.
- The PDF library (`pdf.Open`, `GetPlainText`) is modelled only as its outcome: an open error, or a list of pages that are null, unreadable or plain text. The use cases take `ExtractText` as a collaborator function.
- The embedding service and the vector repository's search are collaborator functions in `Vectors.Services`.
- File I/O in UploadDocument is modelled as a list of actions, each with its own failure. DeleteDocument, GetDocument, DeleteDocumentsByType and GetDocumentCount are one-line delegations to repositories and are not modelled. Neither is the path cleaning done by filepath.Join.
- Generated UUIDs and `time.Now()` are parameters: `jobId`, `resultId`, `fileId`, `now`, `t1`, `t2`.
- Floating point: scores are reals and only compared.
- Chunking.ChunkText: the requires excludes non-empty text when the normalised step chunkSize - overlap is not positive. There the source fails: a negative step makes the second turn slice from a negative start (a panic), and a zero step never ends. Chunking.StepPositiveIff characterises those parameters, and Chunking.LoopStartAsWritten and the Findings table describe the failure.
- Chunking.ChunkText: the "start" and "end" metadata values are ints in a map, as in the source.
- GoStrings.ToLower: lower-cases ASCII letters only, where Go's strings.ToLower maps every Unicode letter. Its one use is the ".pdf" comparison, where that is exact: no other character lower-cases to '.', 'p', 'd' or 'f'. The Kelvin sign and the dotted capital I lower-case to 'k' and 'i', which do not occur in ".pdf".
- Documents.IsPdf: lower-cases ASCII letters only. This is exact for the comparison with ".pdf": no other character lower-cases to 'p', 'd' or 'f'. The Kelvin sign and the dotted capital I lower-case to 'k' and 'i', which do not occur in ".pdf".
- Errors.AppText: carries no ensures of its own. Its behaviour is stated by Errors.NewAppErrorRoundTrip.
- Vectors.ChunkMetadata: carries no ensures of its own. The merge is stated per row by Vectors.RowsPlanRow and Vectors.IngestRows. The caller's map is a value, so it cannot be changed.
- Chunking.Feed, Chunking.Flush, Chunking.Window, Vectors.StoreRows, Vectors.StoreChunk, Evaluation.ProcessTexts, Evaluation.ProcessCV, Evaluation.ProcessProject and Evaluation.RunAndFinish are parts of one Go function body. They are split out as methods so that each verifies within the resource limit.
- Go strings that are not valid UTF-8 are not modelled; text is a sequence of scalar values. The 500-byte query cuts are taken on the bytes, so the model keeps a cut that ends inside a character.

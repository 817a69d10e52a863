/**
 * The document use case (internal/usecase/document_usecase.go): the PDF
 * check on an upload, and the order of the steps of UploadDocument, which
 * must reject a non-PDF upload before touching the file system.
 */
module Documents {
  import opened Errors
  import opened GoStrings
  import opened Domain

  /** filepath.Ext: the suffix from the last '.' of the last path element, or "" when that element has no '.'. */
  function Ext(path: string): (e: string)
    ensures |e| <= |path| && e == path[|path| - |e|..]
    ensures e == [] || (e[0] == '.' && '/' !in e && '.' !in e[1..])
    decreases |path|
  {
    if path == [] || path[|path| - 1] == '/' then []
    else if path[|path| - 1] == '.' then "."
    else
      var e := Ext(path[..|path| - 1]);
      assert path[..|path| - 1][|path| - 1 - |e|..] + [path[|path| - 1]] == path[|path| - 1 - |e|..];
      if e == [] then [] else e + [path[|path| - 1]]
  }

  /** In a file name without '/', Ext is the suffix starting at the last '.'. */
  lemma {:induction false} ExtFromLastDot(name: string, k: nat)
    requires '/' !in name
    requires k < |name| && name[k] == '.' && '.' !in name[k + 1..]
    ensures Ext(name) == name[k..]
    decreases |name|
  {
    if k < |name| - 1 {
      var front := name[..|name| - 1];
      assert front[k + 1..] == name[k + 1..|name| - 1];
      ExtFromLastDot(front, k);
      assert name[k..] == front[k..] + [name[|name| - 1]];
    }
  }

  /** A file name without '.' has no extension. */
  lemma {:induction false} ExtWithoutDot(name: string)
    requires '.' !in name
    ensures Ext(name) == []
    decreases |name|
  {
    if name != [] && name[|name| - 1] != '/' {
      ExtWithoutDot(name[..|name| - 1]);
    }
  }

  /**
   * isPdf: the lower-cased extension is ".pdf" and the Content-Type header is
   * exactly "application/pdf".
   */
  predicate IsPdf(filename: string, contentType: string)
  {
    ToLower(Ext(filename)) == ".pdf" && contentType == "application/pdf"
  }

  /** The extension check ignores case letter by letter; the Content-Type check does not. */
  lemma IsPdfCases(filename: string, contentType: string)
    ensures IsPdf(filename, contentType) <==>
              var e := Ext(filename);
              && |e| == 4 && e[0] == '.'
              && (e[1] == 'p' || e[1] == 'P') && (e[2] == 'd' || e[2] == 'D') && (e[3] == 'f' || e[3] == 'F')
              && contentType == "application/pdf"
  {
    var e := Ext(filename);
    if |e| == 4 {
      assert ToLower(e) == [LowerAscii(e[0]), LowerAscii(e[1]), LowerAscii(e[2]), LowerAscii(e[3])];
    }
  }

  /** "cv.PDF" passes. */
  lemma UpperCasePdfPasses()
    ensures IsPdf("cv.PDF", "application/pdf")
  {
    ExtFromLastDot("cv.PDF", 2);
    IsPdfCases("cv.PDF", "application/pdf");
  }

  /** "cv.pdf.exe" is rejected: its extension is ".exe". */
  lemma DoubleExtensionRejected()
    ensures !IsPdf("cv.pdf.exe", "application/pdf")
  {
    ExtFromLastDot("cv.pdf.exe", 6);
    IsPdfCases("cv.pdf.exe", "application/pdf");
  }

  /** "cv" is rejected: it has no extension. */
  lemma NoExtensionRejected()
    ensures !IsPdf("cv", "application/pdf")
  {
    ExtWithoutDot("cv");
  }

  /** An uploaded file as the multipart form delivers it. */
  datatype Upload = Upload(filename: string, contentType: string, size: int)

  /** The file-system and store actions UploadDocument takes, in order. */
  datatype Action =
    | MakeDir(path: string)
    | CreateFile(path: string)
    | CopyContent(path: string)
    | StoreDocument(doc: Document)
    | RemoveFile(path: string)

  /**
   * What each fallible step returns: opening the upload, rewinding it,
   * creating the directory, creating the file, copying, and storing the
   * record (None for success).
   */
  datatype StepErrors = StepErrors(
    open: Option<Error>, seek: Option<Error>, mkdir: Option<Error>,
    create: Option<Error>, copy: Option<Error>, store: Option<Error>)

  /**
   * UploadDocument, given the upload directory, fresh identifiers for the
   * file name and the record, and what each step returns: the stored
   * document or the error, and the actions taken.
   */
  function UploadDocument(uploadDir: string, file: Upload, docType: DocumentType, fileId: Uuid, docId: Uuid, steps: StepErrors)
    : (r: (Result<Document>, seq<Action>))
    ensures !IsPdf(file.filename, file.contentType) ==>
              r.1 == [] && (steps.open.None? ==> r.0 == Err(Sentinel(InvalidType)))
    ensures r.0.Ok? ==>
              && IsPdf(file.filename, file.contentType)
              && r.0.value.filePath == uploadDir + "/" + DocumentTypeText(docType) + "/" + fileId + Ext(file.filename)
              && r.0.value.filename == file.filename && r.0.value.mimeType == file.contentType
              && |r.1| > 0 && r.1[|r.1| - 1] == StoreDocument(r.0.value)
  {
    if steps.open.Some? then (Err(App(NewAppError("FILE_OPEN_ERROR", "failed to open uploaded file", steps.open))), [])
    else if !IsPdf(file.filename, file.contentType) then (Err(Sentinel(InvalidType)), [])
    else if steps.seek.Some? then (Err(App(NewAppError("FILE_SEEK_ERROR", "failed to reset file pointer", steps.seek))), [])
    else
      var newFilename := fileId + Ext(file.filename);
      var uploadPath := uploadDir + "/" + DocumentTypeText(docType);
      if steps.mkdir.Some? then (Err(App(NewAppError("DIR_CREATE_ERROR", "failed to create upload directory", steps.mkdir))), [MakeDir(uploadPath)])
      else
        var newFilePath := uploadPath + "/" + newFilename;
        var made := [MakeDir(uploadPath), CreateFile(newFilePath)];
        if steps.create.Some? then (Err(App(NewAppError("FILE_CREATE_ERROR", "failed to create file", steps.create))), made)
        else if steps.copy.Some? then (Err(App(NewAppError("FILE_COPY_ERROR", "failed to copy file content", steps.copy))), made + [CopyContent(newFilePath)])
        else
          var doc := Document(docId, docType, file.filename, newFilePath, file.size, file.contentType);
          var stored := made + [CopyContent(newFilePath), StoreDocument(doc)];
          if steps.store.Some? then (Err(steps.store.value), stored + [RemoveFile(newFilePath)])
          else (Ok(doc), stored)
  }

  /** A record the store refuses leaves no file behind: the file written is removed again. */
  lemma FailedStoreRemovesFile(uploadDir: string, file: Upload, docType: DocumentType, fileId: Uuid, docId: Uuid, steps: StepErrors)
    requires steps.open.None? && steps.seek.None? && steps.mkdir.None? && steps.create.None? && steps.copy.None?
    requires IsPdf(file.filename, file.contentType) && steps.store.Some?
    ensures var (res, actions) := UploadDocument(uploadDir, file, docType, fileId, docId, steps);
            && res == Err(steps.store.value)
            && |actions| >= 2 && actions[|actions| - 1].RemoveFile?
            && actions[1] == CreateFile(actions[|actions| - 1].path)
  {
  }
}

/**
 * The PDF service (internal/service/pdf_service.go): the page loop of
 * ExtractText over the pages the PDF library hands back, and cleanText,
 * which trims the text, trims every line and drops the blank ones.
 */
module Pdf {
  import opened Errors
  import opened GoStrings

  /** What the PDF library gives for one page: a null page, a page whose text it cannot get, or its plain text. */
  datatype Page = NullPage | Unreadable | PlainText(text: string)

  /** What cleanText computes: the non-blank lines of the trimmed text, each trimmed, joined by "\n". */
  function Cleaned(text: string): string
  {
    Join(CleanLines(text), "\n")
  }

  /** The lines cleanText keeps. */
  function CleanLines(text: string): (lines: seq<string>)
    ensures forall i :: 0 <= i < |lines| ==> lines[i] != [] && Trimmed(lines[i])
  {
    TrimmedNonBlank(Split(TrimSpace(text), '\n'))
  }

  /** cleanText */
  method CleanText(text: string) returns (r: string)
    ensures r == Cleaned(text)
  {
    var t := TrimSpace(text);
    var lines := Split(t, '\n');
    var cleaned: seq<string> := [];
    var i := 0;
    while i < |lines|
      invariant 0 <= i <= |lines|
      invariant cleaned == TrimmedNonBlank(lines[..i])
    {
      var line := TrimSpace(lines[i]);
      TrimmedNonBlankSnoc(lines[..i], lines[i]);
      assert lines[..i + 1] == lines[..i] + [lines[i]];
      if line != [] {
        cleaned := cleaned + [line];
      }
      i := i + 1;
    }
    assert lines[..i] == lines;
    r := Join(cleaned, "\n");
  }

  /** No kept line holds a newline. */
  lemma CleanLinesNoNewline(text: string)
    ensures forall i :: 0 <= i < |CleanLines(text)| ==> '\n' !in CleanLines(text)[i]
  {
    TrimmedNonBlankKeepsOut(Split(TrimSpace(text), '\n'), '\n');
  }

  /**
   * The lines of the cleaned text are exactly the kept lines: each is
   * non-empty and has no white space at either end, and they come in the
   * order of the input.
   */
  lemma CleanedLines(text: string)
    requires Cleaned(text) != []
    ensures Split(Cleaned(text), '\n') == CleanLines(text)
    ensures forall i :: 0 <= i < |Split(Cleaned(text), '\n')| ==>
              var line := Split(Cleaned(text), '\n')[i];
              line != [] && Trimmed(line)
  {
    CleanLinesNoNewline(text);
    SplitJoin(CleanLines(text), '\n');
  }

  /** The cleaned text is empty exactly when the input is all white space. */
  lemma CleanedEmpty(text: string)
    ensures Cleaned(text) == [] <==> AllSpace(text)
  {
    var t := TrimSpace(text);
    var pieces := Split(t, '\n');
    TrimSpaceEmpty(text);
    if AllSpace(text) {
      assert pieces == [[]];
      assert TrimSpace(pieces[0]) == [];
    } else if CleanLines(text) == [] {
      TrimmedNonBlankEmpty(pieces);
      JoinAllSpace(pieces, "\n");
      JoinSplit(t, '\n');
    } else {
      JoinTrimmed(CleanLines(text), "\n");
    }
  }

  /** cleanText is idempotent. */
  lemma CleanedIdempotent(text: string)
    ensures Cleaned(Cleaned(text)) == Cleaned(text)
  {
    var c := Cleaned(text);
    var lines := CleanLines(text);
    if lines == [] {
      assert Split(TrimSpace(c), '\n') == [[]];
      assert TrimSpace([]) == [];
    } else {
      JoinTrimmed(lines, "\n");
      TrimSpaceFixed(c);
      CleanedLines(text);
      TrimmedNonBlankFixed(lines);
    }
  }

  /** What the page loop writes into the buffer: each readable page's text followed by "\n", in page order. */
  function PagesText(pages: seq<Page>): string
  {
    if pages == [] then []
    else
      var last := pages[|pages| - 1];
      PagesText(pages[..|pages| - 1]) + (if last.PlainText? then last.text + "\n" else [])
  }

  /**
   * ExtractText, given what pdf.Open returned (the pages, or the error):
   * the cleaned text of the readable pages, or an error when opening failed
   * or nothing but white space was found.
   */
  method ExtractText(file: Result<seq<Page>>) returns (r: Result<string>)
    ensures file.Err? ==> r == Err(Wrap("failed to open pdf", file.error))
    ensures file.Ok? ==>
              var c := Cleaned(PagesText(file.value));
              r == if c == [] then Err(Message("no text content found in pdf")) else Ok(c)
  {
    if file.Err? {
      return Err(Wrap("failed to open pdf", file.error));
    }
    var pages := file.value;
    var buf: string := [];
    var pageNum := 1;
    while pageNum <= |pages|
      invariant 1 <= pageNum <= |pages| + 1
      invariant buf == PagesText(pages[..pageNum - 1])
    {
      assert pages[..pageNum] == pages[..pageNum - 1] + [pages[pageNum - 1]];
      var page := pages[pageNum - 1];
      if page.PlainText? {
        buf := buf + page.text;
        buf := buf + "\n";
      }
      pageNum := pageNum + 1;
    }
    assert pages[..pageNum - 1] == pages;
    var cleanedText := CleanText(buf);
    if cleanedText == [] {
      return Err(Message("no text content found in pdf"));
    }
    return Ok(cleanedText);
  }

  /**
   * ExtractText succeeds exactly when the readable pages hold something
   * other than white space, and then every line it returns is non-empty
   * and trimmed.
   */
  lemma ExtractTextOutcome(pages: seq<Page>)
    ensures Cleaned(PagesText(pages)) != [] <==> !AllSpace(PagesText(pages))
    ensures var c := Cleaned(PagesText(pages));
            c != [] ==> forall i :: 0 <= i < |Split(c, '\n')| ==> Split(c, '\n')[i] != [] && Trimmed(Split(c, '\n')[i])
  {
    CleanedEmpty(PagesText(pages));
    if Cleaned(PagesText(pages)) != [] {
      CleanedLines(PagesText(pages));
    }
  }

  /** Pages that are null or unreadable add nothing to the text. */
  lemma SkippedPagesAddNothing(pages: seq<Page>, p: Page)
    requires !p.PlainText?
    ensures PagesText(pages + [p]) == PagesText(pages)
  {
    assert (pages + [p])[..|pages|] == pages;
  }
}

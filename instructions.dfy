/** The per-run instructions built before the analysis run is created
    (app.py:311-345). Unlike the routing of attachments, the CSV and PDF tests
    here are case-sensitive `str.endswith` checks over `file_names`. */
module Instructions {
  import opened Strings
  import Attachments

  // Each literal is split after its first word so that the verifier can read
  // its first characters.
  const Opening := "Please " + "analyze all the uploaded files together to provide a comprehensive evaluation. "
  const CsvAdvice := "For " + "CSV files, use the code_interpreter tool to analyze the data. "
  const PdfCsvAdvice := "Use both " + "the business plan in the PDF and analyze the competitive data in the CSV files. "
  const FrameworkAdvice := "Use your " + "VC evaluation framework and the configured functions to evaluate the startup proposal. "

  /** Twenty spaces: the indentation of the triple-quoted block in the source. */
  const Indent := "                    "

  /** The fixed closing section of app.py:328-345 (the triple-quoted block). */
  const DetailedRequest :=
    "\n" +
    Indent + "Please provide a comprehensive evaluation of the attached startup proposal. \n" +
    Indent + "Follow the structure below and ensure each bullet is explained in multiple sentences or paragraphs:\n" +
    "\n" +
    Indent + "1. Summary of the proposal\n" +
    Indent + "2. Strengths \n" +
    Indent + "3. Areas for improvement\n" +
    Indent + "4. Team assessment (with LinkedIn profiles and a detailed table of team members if CVs are provided)\n" +
    Indent + "5. Competitive analysis\n" +
    Indent + "6. Overall score (1-10)\n" +
    Indent + "7. Final recommendation\n" +
    "\n" +
    Indent + "At the end, always provide a Team Table with columns:\n" +
    Indent + "- Experience Summary\n" +
    Indent + "- Contact Details from CV\n" +
    "\n" +
    Indent + "Remember to reference all attached files (PDFs, CSVs, etc.) during the analysis.\n" +
    Indent

  /** `any(file.endswith(suffix) for file in file_names)` */
  predicate AnyEndsWith(fileNames: seq<string>, suffix: string) {
    exists i :: 0 <= i < |fileNames| && EndsWith(fileNames[i], suffix)
  }

  predicate HasCsv(fileNames: seq<string>) {
    AnyEndsWith(fileNames, ".csv")
  }

  predicate HasPdf(fileNames: seq<string>) {
    AnyEndsWith(fileNames, ".pdf")
  }

  /** The CSV sentence when some name ends with `.csv`, nothing otherwise. */
  function CsvPart(fileNames: seq<string>): string {
    if HasCsv(fileNames) then CsvAdvice else ""
  }

  /** The PDF-and-CSV sentence when names end with both `.pdf` and `.csv`. */
  function PdfCsvPart(fileNames: seq<string>): string {
    if HasPdf(fileNames) && HasCsv(fileNames) then PdfCsvAdvice else ""
  }

  /** The instructions built for `fileNames`, closed by the section `detail`. */
  function Compose(fileNames: seq<string>, detail: string): string {
    Opening + CsvPart(fileNames) + PdfCsvPart(fileNames) + FrameworkAdvice + detail
  }

  /** `instructions` as passed to the run at app.py:348-352. */
  function RunInstructions(fileNames: seq<string>): string {
    Compose(fileNames, DetailedRequest)
  }

  /** What a reader of an instruction text can tell from it: whether the CSV
      sentence follows the opening, and whether the PDF-and-CSV sentence
      follows that. */
  function ReadAdvice(text: string): (bool, bool)
    requires IsPrefix(Opening, text)
  {
    var rest := text[|Opening|..];
    var csv := IsPrefix(CsvAdvice, rest);
    var after := if csv then rest[|CsvAdvice|..] else rest;
    (csv, IsPrefix(PdfCsvAdvice, after))
  }

  lemma NotPrefixAt(p: string, s: string, k: nat)
    requires k < |p| && k < |s| && p[k] != s[k]
    ensures !IsPrefix(p, s)
  {
    if |p| <= |s| {
      assert s[..|p|][k] == s[k];
    }
  }

  lemma FirstCharsOf(a: string, b: string, k: nat)
    requires k < |a|
    ensures (a + b)[k] == a[k]
  {
  }

  /** Reading back a text built from an opening, an optional first sentence,
      a second sentence present only with the first, and a tail that starts
      with neither sentence. */
  lemma ReadBackShape(o: string, a: string, b: string, tail: string, first: string, second: string)
    requires a == "" || a == first
    requires b == "" || (b == second && a == first)
    requires !IsPrefix(first, tail) && !IsPrefix(second, tail)
    ensures var text := o + (a + (b + tail));
            && IsPrefix(o, text)
            && var rest := text[|o|..];
            && (IsPrefix(first, rest) <==> a == first)
            && (IsPrefix(first, rest) ==> (IsPrefix(second, rest[|first|..]) <==> b == second))
  {
    Halves(o, a + (b + tail));
    if a == first {
      Halves(first, b + tail);
      if b == second {
        Halves(second, tail);
      }
    }
  }

  /** The framework sentence, whatever follows it, starts with neither advice
      sentence. */
  lemma TailStartsWithNeitherAdvice(detail: string)
    ensures !IsPrefix(CsvAdvice, FrameworkAdvice + detail)
    ensures !IsPrefix(PdfCsvAdvice, FrameworkAdvice + detail)
  {
    var tail := FrameworkAdvice + detail;
    assert FrameworkAdvice[0] == 'U' && FrameworkAdvice[4] == 'y';
    assert CsvAdvice[0] == 'F' && PdfCsvAdvice[0] == 'U' && PdfCsvAdvice[4] == 'b';
    FirstCharsOf(FrameworkAdvice, detail, 0);
    FirstCharsOf(FrameworkAdvice, detail, 4);
    NotPrefixAt(CsvAdvice, tail, 0);
    NotPrefixAt(PdfCsvAdvice, tail, 4);
  }

  /** Reading the advice back recovers the two tests, whatever the closing
      section. */
  lemma ComposeReadBack(fileNames: seq<string>, detail: string)
    ensures IsPrefix(Opening, Compose(fileNames, detail))
    ensures ReadAdvice(Compose(fileNames, detail))
            == (HasCsv(fileNames), HasCsv(fileNames) && HasPdf(fileNames))
  {
    var a, b := CsvPart(fileNames), PdfCsvPart(fileNames);
    RegroupFive(Opening, a, b, FrameworkAdvice, detail);
    TailStartsWithNeitherAdvice(detail);
    ReadBackShape(Opening, a, b, FrameworkAdvice + detail, CsvAdvice, PdfCsvAdvice);
  }

  /** Reading the advice back from the built text recovers the two tests:
      the CSV sentence is there iff some name ends with `.csv` exactly, and the
      PDF-and-CSV sentence iff names end with both `.pdf` and `.csv`. */
  lemma InstructionsReadBack(fileNames: seq<string>)
    ensures IsPrefix(Opening, RunInstructions(fileNames))
    ensures ReadAdvice(RunInstructions(fileNames))
            == (HasCsv(fileNames), HasCsv(fileNames) && HasPdf(fileNames))
  {
    ComposeReadBack(fileNames, DetailedRequest);
  }

  /** The instructions always open with the request to analyse all files
      together and close with the framework sentence and the closing section. */
  lemma ComposeFrame(fileNames: seq<string>, detail: string)
    ensures IsPrefix(Opening, Compose(fileNames, detail))
    ensures EndsWith(Compose(fileNames, detail), FrameworkAdvice + detail)
  {
    var a, b := CsvPart(fileNames), PdfCsvPart(fileNames);
    RegroupFive(Opening, a, b, FrameworkAdvice, detail);
    Halves(Opening, a + (b + (FrameworkAdvice + detail)));
    Halves(Opening + a + b, FrameworkAdvice + detail);
  }

  /** The instructions always open with the request to analyse all files
      together and close with the framework sentence and the detailed section. */
  lemma InstructionsFrame(fileNames: seq<string>)
    ensures IsPrefix(Opening, RunInstructions(fileNames))
    ensures EndsWith(RunInstructions(fileNames), FrameworkAdvice + DetailedRequest)
  {
    ComposeFrame(fileNames, DetailedRequest);
  }

  /** An upper-case `.CSV` name is routed to the code interpreter, yet the
      exact-case test leaves both advice sentences out of the instructions. */
  lemma UpperCaseCsvGetsNoCsvAdvice()
    ensures Attachments.IsCsv("DATA.CSV")
    ensures !HasCsv(["DATA.CSV"])
    ensures RunInstructions(["DATA.CSV"]) == Opening + FrameworkAdvice + DetailedRequest
  {
    Attachments.UpperCaseCsvIsCsv();
    assert "DATA.CSV"[4..] == ".CSV";
    NoAdviceWithoutCsv(["DATA.CSV"], DetailedRequest);
  }

  /** Without a `.csv` name, neither advice sentence is included. */
  lemma NoAdviceWithoutCsv(fileNames: seq<string>, detail: string)
    requires !HasCsv(fileNames)
    ensures Compose(fileNames, detail) == Opening + FrameworkAdvice + detail
  {
    assert Opening + "" + "" == Opening;
  }
}

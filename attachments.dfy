/** Routing of uploaded files to the assistant's tools and the summary message
    that carries them (app.py:264-300). CSV files, recognised by a
    case-insensitive `.csv` suffix, go to the code interpreter; every other
    file goes to file search. */
module Attachments {
  import opened Strings

  datatype Tool = FileSearch | CodeInterpreter

  /** An entry of `file_ids`: the remote file handle and the local file name. */
  datatype FileRecord = FileRecord(fileId: string, fileName: string)

  /** An attachment of a message: a remote file handle and the tools that may read it. */
  datatype Attachment = Attachment(fileId: string, tools: seq<Tool>)

  /** `name.lower().endswith('.csv')` */
  predicate IsCsv(name: string) {
    EndsWith(Lower(name), ".csv")
  }

  function RouteOf(name: string): Tool {
    if IsCsv(name) then CodeInterpreter else FileSearch
  }

  /** The list comprehensions of app.py:265-266: the entries whose CSV-ness is `csv`. */
  function Select(files: seq<FileRecord>, csv: bool): seq<FileRecord> {
    if files == [] then []
    else (if IsCsv(files[0].fileName) == csv then [files[0]] else []) + Select(files[1..], csv)
  }

  function CsvFiles(files: seq<FileRecord>): seq<FileRecord> {
    Select(files, true)
  }

  function NonCsvFiles(files: seq<FileRecord>): seq<FileRecord> {
    Select(files, false)
  }

  function Names(files: seq<FileRecord>): (r: seq<string>)
    ensures |r| == |files|
  {
    seq(|files|, i requires 0 <= i < |files| => files[i].fileName)
  }

  function FileIds(atts: seq<Attachment>): (r: seq<string>)
    ensures |r| == |atts|
  {
    seq(|atts|, i requires 0 <= i < |atts| => atts[i].fileId)
  }

  function RecordIds(files: seq<FileRecord>): (r: seq<string>)
    ensures |r| == |files|
  {
    seq(|files|, i requires 0 <= i < |files| => files[i].fileId)
  }

  /** One attachment per entry, all carrying the one tool `tool`. */
  function AttachmentsFor(files: seq<FileRecord>, tool: Tool): (r: seq<Attachment>)
    ensures |r| == |files|
  {
    seq(|files|, i requires 0 <= i < |files| => Attachment(files[i].fileId, [tool]))
  }

  /** The attachment list sent with the message: `attachments + csv_attachments`. */
  function MessageAttachments(files: seq<FileRecord>): seq<Attachment> {
    AttachmentsFor(NonCsvFiles(files), FileSearch) + AttachmentsFor(CsvFiles(files), CodeInterpreter)
  }

  /** The attachment each entry should get, judged on its own. */
  function Routed(files: seq<FileRecord>): (r: seq<Attachment>)
    ensures |r| == |files|
  {
    seq(|files|, i requires 0 <= i < |files| => Attachment(files[i].fileId, [RouteOf(files[i].fileName)]))
  }

  /** The two loops of app.py:269-282. */
  method BuildAttachments(fileIds: seq<FileRecord>) returns (attachments: seq<Attachment>, csvAttachments: seq<Attachment>)
    ensures attachments == AttachmentsFor(NonCsvFiles(fileIds), FileSearch)
    ensures csvAttachments == AttachmentsFor(CsvFiles(fileIds), CodeInterpreter)
    ensures attachments + csvAttachments == MessageAttachments(fileIds)
  {
    var csvFiles := CsvFiles(fileIds);
    var nonCsvFiles := NonCsvFiles(fileIds);
    attachments := [];
    var i := 0;
    while i < |nonCsvFiles|
      invariant 0 <= i <= |nonCsvFiles|
      invariant attachments == AttachmentsFor(nonCsvFiles[..i], FileSearch)
    {
      attachments := attachments + [Attachment(nonCsvFiles[i].fileId, [FileSearch])];
      i := i + 1;
    }
    csvAttachments := [];
    var j := 0;
    while j < |csvFiles|
      invariant 0 <= j <= |csvFiles|
      invariant csvAttachments == AttachmentsFor(csvFiles[..j], CodeInterpreter)
    {
      csvAttachments := csvAttachments + [Attachment(csvFiles[j].fileId, [CodeInterpreter])];
      j := j + 1;
    }
    assert nonCsvFiles[..|nonCsvFiles|] == nonCsvFiles;
    assert csvFiles[..|csvFiles|] == csvFiles;
  }

  // ----- properties of the split -----

  /** An entry lands in the CSV part iff its lower-cased name ends with `.csv`,
      and in the other part iff it does not. */
  lemma {:induction false} SelectMembers(files: seq<FileRecord>, csv: bool, f: FileRecord)
    ensures f in Select(files, csv) <==> f in files && IsCsv(f.fileName) == csv
    decreases |files|
  {
    if files != [] {
      SelectMembers(files[1..], csv, f);
      assert files == [files[0]] + files[1..];
    }
  }

  /** The split keeps the original order: it distributes over concatenation. */
  lemma {:induction false} SelectAppend(a: seq<FileRecord>, b: seq<FileRecord>, csv: bool)
    ensures Select(a + b, csv) == Select(a, csv) + Select(b, csv)
    decreases |a|
  {
    if a == [] {
      assert a + b == b;
    } else {
      var head := if IsCsv(a[0].fileName) == csv then [a[0]] else [];
      assert (a + b)[0] == a[0];
      assert (a + b)[1..] == a[1..] + b;
      SelectAppend(a[1..], b, csv);
      assert Select(a + b, csv) == head + (Select(a[1..], csv) + Select(b, csv));
      assert Select(a, csv) == head + Select(a[1..], csv);
    }
  }

  /** The two parts together hold every uploaded entry exactly once. */
  lemma {:induction false} SplitIsPermutation(files: seq<FileRecord>)
    ensures multiset(CsvFiles(files)) + multiset(NonCsvFiles(files)) == multiset(files)
    decreases |files|
  {
    if files != [] {
      SplitIsPermutation(files[1..]);
      assert files == [files[0]] + files[1..];
    }
  }

  lemma RoutedAppend(a: seq<FileRecord>, b: seq<FileRecord>)
    ensures Routed(a + b) == Routed(a) + Routed(b)
  {
    assert forall i :: 0 <= i < |a + b| ==> Routed(a + b)[i] == (Routed(a) + Routed(b))[i];
  }

  lemma {:induction false} SelectRouted(files: seq<FileRecord>)
    ensures multiset(Routed(NonCsvFiles(files)) + Routed(CsvFiles(files))) == multiset(Routed(files))
    decreases |files|
  {
    if files != [] {
      var f, rest := files[0], files[1..];
      assert files == [f] + rest;
      SelectRouted(rest);
      RoutedAppend([f], rest);
      var pick := (if IsCsv(f.fileName) then [f] else []);
      var skip := (if IsCsv(f.fileName) then [] else [f]);
      assert CsvFiles(files) == pick + CsvFiles(rest);
      assert NonCsvFiles(files) == skip + NonCsvFiles(rest);
      RoutedAppend(pick, CsvFiles(rest));
      RoutedAppend(skip, NonCsvFiles(rest));
    }
  }

  lemma AttachmentsForIsRouted(files: seq<FileRecord>, tool: Tool)
    requires forall f :: f in files ==> RouteOf(f.fileName) == tool
    ensures AttachmentsFor(files, tool) == Routed(files)
  {
    assert forall i :: 0 <= i < |files| ==> files[i] in files;
  }

  /** The attachments sent are the uploaded entries, each exactly once, each
      with the tool its own name selects; the file-search ones come first. */
  lemma MessageAttachmentsRouting(files: seq<FileRecord>)
    ensures multiset(MessageAttachments(files)) == multiset(Routed(files))
    ensures multiset(FileIds(MessageAttachments(files))) == multiset(RecordIds(files))
    ensures forall i :: 0 <= i < |MessageAttachments(files)| ==>
              (MessageAttachments(files)[i].tools == [CodeInterpreter] <==> i >= |NonCsvFiles(files)|)
  {
    var csv, other := CsvFiles(files), NonCsvFiles(files);
    forall f | f in csv ensures RouteOf(f.fileName) == CodeInterpreter {
      SelectMembers(files, true, f);
    }
    forall f | f in other ensures RouteOf(f.fileName) == FileSearch {
      SelectMembers(files, false, f);
    }
    AttachmentsForIsRouted(csv, CodeInterpreter);
    AttachmentsForIsRouted(other, FileSearch);
    SelectRouted(files);
    SelectIds(files);
    assert FileIds(AttachmentsFor(other, FileSearch)) == RecordIds(other);
    assert FileIds(AttachmentsFor(csv, CodeInterpreter)) == RecordIds(csv);
    assert FileIds(MessageAttachments(files)) == RecordIds(other) + RecordIds(csv);
  }

  lemma RecordIdsAppend(a: seq<FileRecord>, b: seq<FileRecord>)
    ensures RecordIds(a + b) == RecordIds(a) + RecordIds(b)
  {
    assert forall i :: 0 <= i < |a + b| ==> RecordIds(a + b)[i] == (RecordIds(a) + RecordIds(b))[i];
  }

  lemma {:induction false} SelectIds(files: seq<FileRecord>)
    ensures multiset(RecordIds(NonCsvFiles(files)) + RecordIds(CsvFiles(files))) == multiset(RecordIds(files))
    decreases |files|
  {
    if files != [] {
      var f, rest := files[0], files[1..];
      assert files == [f] + rest;
      SelectIds(rest);
      RecordIdsAppend([f], rest);
      var pick := (if IsCsv(f.fileName) then [f] else []);
      var skip := (if IsCsv(f.fileName) then [] else [f]);
      assert CsvFiles(files) == pick + CsvFiles(rest);
      assert NonCsvFiles(files) == skip + NonCsvFiles(rest);
      RecordIdsAppend(pick, CsvFiles(rest));
      RecordIdsAppend(skip, NonCsvFiles(rest));
    }
  }

  // ----- the summary message -----

  const UploadLead := "I've uploaded "
  // The literals are split after their first word so that the verifier can
  // read their first characters.
  const CsvLead := "The " + "following are CSV files that need code_interpreter: "
  const Closing := "Please " + "analyze all files together for a comprehensive evaluation."

  /** The first sentence: the count of uploaded entries and all names. */
  function UploadSummary(count: nat, fileNames: seq<string>): string {
    UploadLead + NatToString(count) + SummaryTail(fileNames)
  }

  function SummaryTail(fileNames: seq<string>): string {
    " " + "files for analysis: " + Join(", ", fileNames) + ". "
  }

  /** The sentence naming the CSV files. */
  function CsvSentence(csvFiles: seq<FileRecord>): string {
    CsvLead + Join(", ", Names(csvFiles)) + ". "
  }

  /** The CSV sentence when there is a CSV file, nothing otherwise. */
  function CsvPart(fileIds: seq<FileRecord>): string {
    if |CsvFiles(fileIds)| > 0 then CsvSentence(CsvFiles(fileIds)) else ""
  }

  /** `message_text` of app.py:285-290; the count is `len(file_ids)`, the list
      of names is `file_names`. */
  function MessageText(fileIds: seq<FileRecord>, fileNames: seq<string>): string {
    UploadSummary(|fileIds|, fileNames) + CsvPart(fileIds) + Closing
  }

  /** The message opens with the count and the comma-joined names and always
      ends with the request to analyse all files together. */
  lemma MessageTextFrame(fileIds: seq<FileRecord>, fileNames: seq<string>)
    ensures IsPrefix(UploadSummary(|fileIds|, fileNames), MessageText(fileIds, fileNames))
    ensures EndsWith(MessageText(fileIds, fileNames), Closing)
  {
    var head := UploadSummary(|fileIds|, fileNames);
    var mid := CsvPart(fileIds);
    assert MessageText(fileIds, fileNames) == head + (mid + Closing);
    Halves(head, mid + Closing);
    Halves(head + mid, Closing);
  }

  lemma CountAfterLead(n: nat, rest: string)
    requires |rest| > 0 && rest[0] == ' '
    ensures ParseNat(DigitsPrefix((UploadLead + NatToString(n) + rest)[|UploadLead|..])) == n
  {
    var digits := NatToString(n);
    assert UploadLead + digits + rest == UploadLead + (digits + rest);
    Halves(UploadLead, digits + rest);
    DigitsPrefixOf(digits, rest);
    ParseNatToString(n);
  }

  /** The number written after "I've uploaded " reads back as the number of uploaded entries. */
  lemma MessageCountReadsBack(fileIds: seq<FileRecord>, fileNames: seq<string>)
    ensures |UploadLead| <= |MessageText(fileIds, fileNames)|
    ensures ParseNat(DigitsPrefix(MessageText(fileIds, fileNames)[|UploadLead|..])) == |fileIds|
  {
    var lead := UploadLead + NatToString(|fileIds|);
    var tail, mid := SummaryTail(fileNames), CsvPart(fileIds);
    var rest := tail + mid + Closing;
    assert tail[0] == ' ';
    assert MessageText(fileIds, fileNames) == lead + tail + mid + Closing;
    Regroup(lead, tail, mid, Closing);
    CountAfterLead(|fileIds|, rest);
  }

  lemma LeadAfter(head: string, mid: string, lead: string, tail: string, closing: string)
    requires mid == "" || mid == lead + tail
    requires |lead| > 0 && |closing| > 0 && closing[0] != lead[0]
    ensures |head| <= |head + mid + closing|
    ensures mid != "" <==> IsPrefix(lead, (head + mid + closing)[|head|..])
    ensures IsPrefix(mid, (head + mid + closing)[|head|..])
  {
    assert head + mid + closing == head + (mid + closing);
    Halves(head, mid + closing);
    Halves(mid, closing);
    if mid != "" {
      assert mid + closing == lead + (tail + closing);
      Halves(lead, tail + closing);
    }
  }

  /** Right after the first sentence comes the CSV sentence iff at least one
      uploaded entry is a CSV file, and when it does, it names exactly the CSV files. */
  lemma MessageCsvSentenceIff(fileIds: seq<FileRecord>, fileNames: seq<string>)
    ensures |UploadSummary(|fileIds|, fileNames)| <= |MessageText(fileIds, fileNames)|
    ensures var rest := MessageText(fileIds, fileNames)[|UploadSummary(|fileIds|, fileNames)|..];
            (|CsvFiles(fileIds)| > 0 <==> IsPrefix(CsvLead, rest))
            && (|CsvFiles(fileIds)| > 0 ==> IsPrefix(CsvSentence(CsvFiles(fileIds)), rest))
  {
    var csv := CsvFiles(fileIds);
    var tail := Join(", ", Names(csv)) + ". ";
    assert |csv| > 0 ==> CsvPart(fileIds) == CsvLead + tail;
    assert Closing[0] != CsvLead[0];
    LeadAfter(UploadSummary(|fileIds|, fileNames), CsvPart(fileIds), CsvLead, tail, Closing);
  }

  /** The example's split: `competitors.csv` alone is a CSV file. */
  lemma PitchAndCompetitorsSplit(files: seq<FileRecord>)
    requires files == [FileRecord("file-1", "pitch.pdf"), FileRecord("file-2", "competitors.csv")]
    ensures CsvFiles(files) == [files[1]] && NonCsvFiles(files) == [files[0]]
  {
    assert Lower("competitors.csv")[11..] == ".csv";
    assert Lower("pitch.pdf")[5..] == ".pdf";
    assert IsCsv("competitors.csv") && !IsCsv("pitch.pdf");
    assert files[1..][1..] == [];
    assert Select(files[1..], true) == [files[1]];
    assert Select(files[1..], false) == [];
  }

  lemma PitchAndCompetitorsText(files: seq<FileRecord>)
    requires files == [FileRecord("file-1", "pitch.pdf"), FileRecord("file-2", "competitors.csv")]
    requires CsvFiles(files) == [files[1]]
    ensures MessageText(files, Names(files)) ==
            UploadSummary(2, ["pitch.pdf", "competitors.csv"]) + CsvLead + "competitors.csv" + ". " + Closing
  {
    var csvNames := Names([files[1]]);
    assert csvNames == ["competitors.csv"];
    assert Join(", ", csvNames) == "competitors.csv";
    assert Names(files) == ["pitch.pdf", "competitors.csv"];
  }

  /** Uploading `pitch.pdf` and `competitors.csv`: the PDF goes to file search,
      the CSV to the code interpreter, and the CSV sentence names the CSV file alone. */
  lemma PitchAndCompetitors()
    ensures var files := [FileRecord("file-1", "pitch.pdf"), FileRecord("file-2", "competitors.csv")];
            && MessageAttachments(files) == [Attachment("file-1", [FileSearch]), Attachment("file-2", [CodeInterpreter])]
            && MessageText(files, Names(files)) ==
               UploadSummary(2, ["pitch.pdf", "competitors.csv"]) + CsvLead + "competitors.csv" + ". " + Closing
  {
    var files := [FileRecord("file-1", "pitch.pdf"), FileRecord("file-2", "competitors.csv")];
    PitchAndCompetitorsSplit(files);
    assert AttachmentsFor([files[0]], FileSearch) == [Attachment("file-1", [FileSearch])];
    assert AttachmentsFor([files[1]], CodeInterpreter) == [Attachment("file-2", [CodeInterpreter])];
    PitchAndCompetitorsText(files);
  }

  /** `DATA.CSV` is routed to the code interpreter like `data.csv`. */
  lemma UpperCaseCsvIsCsv()
    ensures IsCsv("DATA.CSV") && RouteOf("DATA.CSV") == CodeInterpreter
  {
    assert Lower("DATA.CSV")[4..] == ".csv";
  }
}

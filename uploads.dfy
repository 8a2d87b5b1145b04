/** The upload bookkeeping of the "Analyze All Files" button (app.py:225-256):
    each uploaded file whose name is not yet in the processed set is uploaded.
    A success appends to `file_ids` and `file_names`, removes the temporary
    copy and marks the name processed; a failed upload is reported and changes
    nothing. The removal sits between the append and the marking inside the
    same `try`, so when it raises the file stays recorded but unmarked. The
    remote upload and the removal are replaced by their outcome for each file,
    in order. */
module Uploads {
  import opened Attachments

  /** What happened to one attempted file. */
  datatype UploadAttempt =
    | Uploaded(fileId: string)                     // uploaded, recorded, temporary copy removed, marked
    | RemoveFailed(fileId: string, reason: string) // uploaded and recorded, but `os.remove` raised before marking
    | UploadFailed(reason: string)                 // `client.files.create` raised: nothing recorded

  /** The attempt appended a record to `file_ids`. */
  predicate Records(a: UploadAttempt) {
    a.Uploaded? || a.RemoveFailed?
  }

  /** The processed set and the `file_ids` list after some of the files. */
  datatype Batch = Batch(processed: set<string>, fileIds: seq<FileRecord>)

  /** One iteration of the loop. */
  function Step(b: Batch, name: string, attempt: UploadAttempt): Batch {
    if name in b.processed then b
    else match attempt
      case Uploaded(id) => Batch(b.processed + {name}, b.fileIds + [FileRecord(id, name)])
      case RemoveFailed(id, _) => Batch(b.processed, b.fileIds + [FileRecord(id, name)])
      case UploadFailed(_) => b
  }

  /** The loop over all uploaded files; `attempts[i]` is consulted only when
      `names[i]` is attempted. */
  function Upload(processed: set<string>, names: seq<string>, attempts: seq<UploadAttempt>): Batch
    requires |attempts| == |names|
    decreases |names|
  {
    if names == [] then Batch(processed, [])
    else
      var n := |names| - 1;
      Step(Upload(processed, names[..n], attempts[..n]), names[n], attempts[n])
  }

  /** The names whose attempt ran to the end and was marked processed. */
  function SucceededNames(names: seq<string>, attempts: seq<UploadAttempt>): set<string>
    requires |attempts| == |names|
  {
    set i | 0 <= i < |names| && attempts[i].Uploaded? :: names[i]
  }

  /** Reference condition: file `i` is recorded iff its attempt records and its
      name was neither processed before the press nor marked by an earlier
      file of the same press. */
  predicate IsRecorded(processed: set<string>, names: seq<string>, attempts: seq<UploadAttempt>, i: nat)
    requires |attempts| == |names| && i < |names|
  {
    Records(attempts[i]) && names[i] !in processed + SucceededNames(names[..i], attempts[..i])
  }

  /** Reference definition: the records of the files `IsRecorded` selects, in
      upload order. */
  function RecordedFiles(processed: set<string>, names: seq<string>, attempts: seq<UploadAttempt>): seq<FileRecord>
    requires |attempts| == |names|
    decreases |names|
  {
    if names == [] then []
    else
      var n := |names| - 1;
      RecordedFiles(processed, names[..n], attempts[..n])
      + (if IsRecorded(processed, names, attempts, n) then [FileRecord(attempts[n].fileId, names[n])] else [])
  }

  predicate Distinct(names: seq<string>) {
    forall i, j :: 0 <= i < j < |names| ==> names[i] != names[j]
  }

  function NameSet(records: seq<FileRecord>): set<string> {
    set i | 0 <= i < |records| :: records[i].fileName
  }

  lemma NameSetAppend(records: seq<FileRecord>, r: FileRecord)
    ensures NameSet(records + [r]) == NameSet(records) + {r.fileName}
  {
    forall x | x in NameSet(records + [r]) ensures x in NameSet(records) + {r.fileName} {
      var i :| 0 <= i < |records| + 1 && (records + [r])[i].fileName == x;
      if i < |records| {
        assert records[i].fileName == x;
      }
    }
    forall x | x in NameSet(records) ensures x in NameSet(records + [r]) {
      var i :| 0 <= i < |records| && records[i].fileName == x;
      assert (records + [r])[i].fileName == x;
    }
    assert (records + [r])[|records|].fileName == r.fileName;
  }

  /** After the loop the processed set is the old set together with every
      name whose attempt ran to the end. */
  lemma {:induction false} UploadProcessedSet(processed: set<string>, names: seq<string>, attempts: seq<UploadAttempt>)
    requires |attempts| == |names|
    ensures Upload(processed, names, attempts).processed == processed + SucceededNames(names, attempts)
    decreases |names|
  {
    if names != [] {
      var n := |names| - 1;
      UploadProcessedSet(processed, names[..n], attempts[..n]);
      SucceededNamesSnoc(names, attempts);
    }
  }

  /** The marked names of a press are those of all but its last file, plus the
      last one if its attempt ran to the end. */
  lemma SucceededNamesSnoc(names: seq<string>, attempts: seq<UploadAttempt>)
    requires |attempts| == |names| && names != []
    ensures var n := |names| - 1;
            SucceededNames(names, attempts)
            == SucceededNames(names[..n], attempts[..n]) + (if attempts[n].Uploaded? then {names[n]} else {})
  {
    var n := |names| - 1;
    var before := SucceededNames(names[..n], attempts[..n]);
    forall x | x in SucceededNames(names, attempts)
      ensures x in before + (if attempts[n].Uploaded? then {names[n]} else {})
    {
      var i :| 0 <= i < |names| && attempts[i].Uploaded? && names[i] == x;
      if i < n {
        assert names[..n][i] == x && attempts[..n][i].Uploaded?;
      }
    }
    forall x | x in before ensures x in SucceededNames(names, attempts) {
      var i :| 0 <= i < n && attempts[..n][i].Uploaded? && names[..n][i] == x;
      assert names[i] == x && attempts[i].Uploaded?;
    }
  }

  /** `file_ids` lists exactly the files the reference condition selects, in
      upload order: a name already processed, or marked earlier in the same
      press, is skipped, and a failed upload skips only its own file. */
  lemma {:induction false} UploadListsRecorded(processed: set<string>, names: seq<string>, attempts: seq<UploadAttempt>)
    requires |attempts| == |names|
    ensures Upload(processed, names, attempts).fileIds == RecordedFiles(processed, names, attempts)
    decreases |names|
  {
    if names != [] {
      var n := |names| - 1;
      UploadListsRecorded(processed, names[..n], attempts[..n]);
      UploadProcessedSet(processed, names[..n], attempts[..n]);
    }
  }

  /** Every recorded file was unprocessed before the press, and the processed
      set grows only by recorded names. When no removal fails, no name is
      recorded twice and the set grows by exactly the recorded names. */
  lemma {:induction false} UploadRecordsAreFresh(processed: set<string>, names: seq<string>, attempts: seq<UploadAttempt>)
    requires |attempts| == |names|
    ensures var b := Upload(processed, names, attempts);
            && NameSet(b.fileIds) !! processed
            && processed <= b.processed <= processed + NameSet(b.fileIds)
            && ((forall i :: 0 <= i < |attempts| ==> !attempts[i].RemoveFailed?) ==>
                  Distinct(Names(b.fileIds)) && b.processed == processed + NameSet(b.fileIds))
    decreases |names|
  {
    if names != [] {
      var n := |names| - 1;
      UploadRecordsAreFresh(processed, names[..n], attempts[..n]);
      var b := Upload(processed, names[..n], attempts[..n]);
      if names[n] !in b.processed && Records(attempts[n]) {
        var r := FileRecord(attempts[n].fileId, names[n]);
        NameSetAppend(b.fileIds, r);
        if forall i :: 0 <= i < |attempts| ==> !attempts[i].RemoveFailed? {
          assert forall i :: 0 <= i < n ==> !attempts[..n][i].RemoveFailed? by {
            forall i | 0 <= i < n ensures !attempts[..n][i].RemoveFailed? {
              assert attempts[..n][i] == attempts[i];
            }
          }
          forall i, j | 0 <= i < j < |b.fileIds| + 1
            ensures Names(b.fileIds + [r])[i] != Names(b.fileIds + [r])[j]
          {
            if j == |b.fileIds| {
              assert Names(b.fileIds + [r])[i] == b.fileIds[i].fileName;
              assert b.fileIds[i].fileName in NameSet(b.fileIds);
            } else {
              assert Names(b.fileIds + [r])[i] == Names(b.fileIds)[i];
              assert Names(b.fileIds + [r])[j] == Names(b.fileIds)[j];
            }
          }
        }
      } else if (forall i :: 0 <= i < |attempts| ==> !attempts[i].RemoveFailed?) {
        assert forall i :: 0 <= i < n ==> !attempts[..n][i].RemoveFailed? by {
          forall i | 0 <= i < n ensures !attempts[..n][i].RemoveFailed? {
            assert attempts[..n][i] == attempts[i];
          }
        }
      }
    }
  }

  /** Files whose names are all processed already upload nothing. */
  lemma {:induction false} AllProcessedUploadsNothing(processed: set<string>, names: seq<string>, attempts: seq<UploadAttempt>)
    requires |attempts| == |names|
    requires forall i :: 0 <= i < |names| ==> names[i] in processed
    ensures Upload(processed, names, attempts) == Batch(processed, [])
    decreases |names|
  {
    if names != [] {
      var n := |names| - 1;
      AllProcessedUploadsNothing(processed, names[..n], attempts[..n]);
    }
  }

  /** Pressing the button again with the same files never re-uploads a name
      the first press marked; it re-uploads nothing the first press recorded
      when no removal failed, and uploads nothing at all when every attempt of
      the first press ran to the end. */
  lemma UploadTwiceUploadsOnce(processed: set<string>, names: seq<string>,
                               first: seq<UploadAttempt>, second: seq<UploadAttempt>)
    requires |first| == |names| && |second| == |names|
    ensures var b1 := Upload(processed, names, first);
            var b2 := Upload(b1.processed, names, second);
            && NameSet(b2.fileIds) !! SucceededNames(names, first)
            && ((forall i :: 0 <= i < |names| ==> !first[i].RemoveFailed?) ==> NameSet(b2.fileIds) !! NameSet(b1.fileIds))
            && ((forall i :: 0 <= i < |names| ==> first[i].Uploaded?) ==> b2.fileIds == [])
  {
    var b1 := Upload(processed, names, first);
    UploadProcessedSet(processed, names, first);
    UploadRecordsAreFresh(processed, names, first);
    UploadRecordsAreFresh(b1.processed, names, second);
    if forall i :: 0 <= i < |names| ==> first[i].Uploaded? {
      forall i | 0 <= i < |names| ensures names[i] in b1.processed {
        assert names[i] in SucceededNames(names, first);
      }
      AllProcessedUploadsNothing(b1.processed, names, second);
    }
  }

  /** A file whose temporary copy could not be removed is recorded but not
      marked, so the next press uploads it again. */
  lemma RemoveFailureIsRetried(processed: set<string>, name: string, id: string, reason: string, id2: string)
    requires name !in processed
    ensures var b1 := Upload(processed, [name], [RemoveFailed(id, reason)]);
            && b1 == Batch(processed, [FileRecord(id, name)])
            && Upload(b1.processed, [name], [Uploaded(id2)]) == Batch(processed + {name}, [FileRecord(id2, name)])
  {
    assert [name][..0] == [] && [RemoveFailed(id, reason)][..0] == [] && [Uploaded(id2)][..0] == [];
  }
}

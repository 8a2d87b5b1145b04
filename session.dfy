/** The per-browser-session state the front-end keeps (`st.session_state`):
    the two ids, the local chat history and the set of file names already
    uploaded in this conversation, with the operations that rewrite them. */
module Session {
  import opened Messages
  import opened Attachments
  import opened Uploads
  import ChatHistory
  import opened Provisioner

  /** How the "Start New Conversation" button ended (app.py:165-187). */
  datatype NewConversation =
    | Started
    | ThreadCreationRaised     // `create_thread` at app.py:167 is outside the try: the script run aborts
    | StorageUpdateFailed      // reading or rewriting the storage file raised

  class SessionState {
    var assistantId: Option<string>
    var threadId: Option<string>
    var messages: seq<ChatMessage>
    var processedFiles: set<string>

    /** The state right after start-up (app.py:127-129, 135-136, 195-196). */
    constructor (assistantId: Option<string>, threadId: Option<string>)
      ensures this.assistantId == assistantId && this.threadId == threadId
      ensures messages == [] && processedFiles == {}
    {
      this.assistantId := assistantId;
      this.threadId := threadId;
      messages := [];
      processedFiles := {};
    }

    /** Fill the empty history from the thread's newest-first listing. */
    method LoadHistory(listed: seq<ThreadMessage>)
      modifies this`messages
      ensures messages == ChatHistory.History(listed)
    {
      messages := ChatHistory.RebuildHistory(listed);
    }

    /** The upload loop of app.py:221-256. `attempts[i]` is what the upload
        of `names[i]` returns; it is consulted only for an unprocessed name. */
    method UploadFiles(names: seq<string>, attempts: seq<UploadAttempt>) returns (fileIds: seq<FileRecord>, fileNames: seq<string>)
      requires |attempts| == |names|
      modifies this`processedFiles
      ensures var b := Upload(old(processedFiles), names, attempts);
              processedFiles == b.processed && fileIds == b.fileIds
      ensures fileNames == Names(fileIds)
    {
      fileIds, fileNames := [], [];
      var i := 0;
      while i < |names|
        invariant 0 <= i <= |names|
        invariant var b := Upload(old(processedFiles), names[..i], attempts[..i]);
                  processedFiles == b.processed && fileIds == b.fileIds
        invariant fileNames == Names(fileIds)
      {
        assert names[..i + 1][..i] == names[..i] && attempts[..i + 1][..i] == attempts[..i];
        if names[i] !in processedFiles {
          match attempts[i]
          case Uploaded(id) =>
            fileIds := fileIds + [FileRecord(id, names[i])];
            fileNames := fileNames + [names[i]];
            processedFiles := processedFiles + {names[i]};
          case RemoveFailed(id, _) =>
            fileIds := fileIds + [FileRecord(id, names[i])];
            fileNames := fileNames + [names[i]];
          case UploadFailed(_) =>
        }
        i := i + 1;
      }
      assert names[..|names|] == names && attempts[..|attempts|] == attempts;
    }

    /** The "Start New Conversation" button. `newThread` is what `create_thread`
        returns (`None` when it raises), `writeOk` whether rewriting the file
        succeeds. Only a successful update of the file changes the session. */
    method StartNewConversation(store: StorageFile, newThread: Option<string>, writeOk: bool)
      returns (outcome: NewConversation)
      modifies this, store
      ensures outcome == Started <==> newThread.Some? && old(store.contents).Saved? && writeOk
      ensures outcome == ThreadCreationRaised <==> newThread.None?
      ensures outcome == Started ==>
                && store.contents == Saved(old(store.contents).assistantId, newThread)
                && threadId == newThread
                && assistantId == old(assistantId)
                && messages == []
                && processedFiles == {}
      ensures outcome != Started ==>
                && store.contents == old(store.contents)
                && assistantId == old(assistantId) && threadId == old(threadId)
                && messages == old(messages) && processedFiles == old(processedFiles)
    {
      if newThread.None? {
        return ThreadCreationRaised;
      }
      match store.contents {
        case Absent =>
          return StorageUpdateFailed;
        case Unreadable =>
          return StorageUpdateFailed;
        case Saved(a, _) =>
          if !writeOk {
            return StorageUpdateFailed;
          }
          store.contents := Saved(a, newThread);
      }
      threadId := newThread;
      messages := [];
      processedFiles := {};
      outcome := Started;
    }
  }
}

/** The storage file that remembers the assistant and thread ids, and the
    start-up repair of that cache (`get_or_create_assistant_and_thread`,
    app.py:31-92). Remote calls are replaced by their outcomes: whether the
    cached ids still resolve, the id a creation call returned (or `None` when
    it raised), and whether writing the file succeeded. */
module Provisioner {
  import opened Messages

  /** What `assistant_data.json` holds, as far as the code reads it. A key
      that is missing, or holds something that is not an id, reads as `None`. */
  datatype Contents =
    | Absent                 // `os.path.exists` is false
    | Unreadable             // opening or JSON-decoding the file raised
    | Saved(assistantId: Option<string>, threadId: Option<string>)

  /** The storage file: its contents are overwritten in place. */
  class StorageFile {
    var contents: Contents

    constructor (initial: Contents)
      ensures contents == initial
    {
      contents := initial;
    }
  }

  /** What provisioning decides: the ids it returns, whether it asked for a new
      assistant or thread, and the contents it wrote, if it wrote any. */
  datatype Provisioned = Provisioned(
    assistantId: Option<string>,
    threadId: Option<string>,
    createsAssistant: bool,
    createsThread: bool,
    written: Option<Contents>)

  /** The ids that survive the cache check (app.py:36-61): each cached id is
      kept only if it is present and its retrieve succeeded; a storage file
      that cannot be read resets both. */
  function Cached(contents: Contents, assistantFound: bool, threadFound: bool): (Option<string>, Option<string>) {
    match contents
    case Absent => (None, None)
    case Unreadable => (None, None)
    case Saved(a, t) =>
      (if a.Some? && assistantFound then a else None,
       if t.Some? && threadFound then t else None)
  }

  /** The whole decision of app.py:31-92. `newAssistant` and `newThread` are
      what the creation calls return, `None` when they raise. */
  function Provision(contents: Contents, assistantFound: bool, threadFound: bool,
                     newAssistant: Option<string>, newThread: Option<string>, writeOk: bool): Provisioned
  {
    var (a0, t0) := Cached(contents, assistantFound, threadFound);
    var createsA := a0.None?;
    var a := if createsA then newAssistant else a0;
    if a.None? then Provisioned(None, None, createsA, false, None)
    else
      var createsT := t0.None?;
      var t := if createsT then newThread else t0;
      if t.None? then Provisioned(a, None, createsA, createsT, None)
      else Provisioned(a, t, createsA, createsT, if writeOk then Some(Saved(a, t)) else None)
  }

  /** `get_or_create_assistant_and_thread`, with its early returns. */
  method GetOrCreateAssistantAndThread(store: StorageFile, assistantFound: bool, threadFound: bool,
                                       newAssistant: Option<string>, newThread: Option<string>, writeOk: bool)
    returns (assistantId: Option<string>, threadId: Option<string>)
    modifies store
    ensures var p := Provision(old(store.contents), assistantFound, threadFound, newAssistant, newThread, writeOk);
            && assistantId == p.assistantId && threadId == p.threadId
            && store.contents == (if p.written.Some? then p.written.value else old(store.contents))
  {
    assistantId, threadId := None, None;
    match store.contents {
      case Absent =>
      case Unreadable =>
        assistantId, threadId := None, None;
      case Saved(a, t) =>
        if a.Some? && assistantFound {
          assistantId := a;
        } else {
          assistantId := None;
        }
        if t.Some? && threadFound {
          threadId := t;
        } else {
          threadId := None;
        }
    }
    if assistantId.None? {
      if newAssistant.None? {
        return None, None;
      }
      assistantId := newAssistant;
    }
    if threadId.None? {
      if newThread.None? {
        return assistantId, None;
      }
      threadId := newThread;
    }
    if writeOk {
      store.contents := Saved(assistantId, threadId);
    }
  }

  // ----- properties of the decision -----

  /** A cached id is kept, and nothing new is created for it, iff it is present
      and its retrieve succeeds; otherwise the creation result takes its place. */
  lemma CachedIdSurvivesIffFound(a: Option<string>, t: Option<string>, assistantFound: bool, threadFound: bool,
                                 newAssistant: Option<string>, newThread: Option<string>, writeOk: bool)
    ensures var p := Provision(Saved(a, t), assistantFound, threadFound, newAssistant, newThread, writeOk);
            && (p.createsAssistant <==> !(a.Some? && assistantFound))
            && (a.Some? && assistantFound ==> p.assistantId == a)
            && (!(a.Some? && assistantFound) ==> p.assistantId == newAssistant)
            && (p.assistantId.Some? ==> (p.createsThread <==> !(t.Some? && threadFound)))
            && (p.assistantId.Some? && t.Some? && threadFound ==> p.threadId == t)
            && (p.assistantId.Some? && !(t.Some? && threadFound) ==> p.threadId == newThread)
  {
  }

  /** A storage file that cannot be read resets both ids: both are created anew. */
  lemma UnreadableResetsBoth(assistantFound: bool, threadFound: bool,
                             newAssistant: Option<string>, newThread: Option<string>, writeOk: bool)
    ensures var p := Provision(Unreadable, assistantFound, threadFound, newAssistant, newThread, writeOk);
            && p.createsAssistant
            && p.assistantId == newAssistant
            && (newAssistant.Some? ==> p.createsThread && p.threadId == newThread)
  {
  }

  /** A failed assistant creation returns (None, None) and writes nothing. */
  lemma AssistantCreationFailure(contents: Contents, assistantFound: bool, threadFound: bool,
                                 newThread: Option<string>, writeOk: bool)
    requires Cached(contents, assistantFound, threadFound).0.None?
    ensures Provision(contents, assistantFound, threadFound, None, newThread, writeOk)
            == Provisioned(None, None, true, false, None)
  {
  }

  /** A failed thread creation returns the assistant id alone (the cached one
      if it survived, else the newly created one) and writes nothing. */
  lemma ThreadCreationFailure(contents: Contents, assistantFound: bool, threadFound: bool,
                              newAssistant: Option<string>, writeOk: bool)
    requires var (a0, _) := Cached(contents, assistantFound, threadFound); a0.Some? || newAssistant.Some?
    requires Cached(contents, assistantFound, threadFound).1.None?
    ensures var (a0, _) := Cached(contents, assistantFound, threadFound);
            var p := Provision(contents, assistantFound, threadFound, newAssistant, None, writeOk);
            && p.assistantId == (if a0.Some? then a0 else newAssistant)
            && p.assistantId.Some? && p.threadId == None && p.written == None
  {
  }

  /** The file is written only when both ids are set, and then holds exactly
      the pair that is returned; it is written whenever both are set and the
      write succeeds. */
  lemma WritesOnlyTheFinalPair(contents: Contents, assistantFound: bool, threadFound: bool,
                               newAssistant: Option<string>, newThread: Option<string>, writeOk: bool)
    ensures var p := Provision(contents, assistantFound, threadFound, newAssistant, newThread, writeOk);
            && (p.written.Some? <==> p.assistantId.Some? && p.threadId.Some? && writeOk)
            && (p.written.Some? ==> p.written.value == Saved(p.assistantId, p.threadId))
  {
  }

  /** With no storage file, a first start creates both ids and writes a file
      holding exactly them. */
  lemma FirstStartCreatesBoth(a: string, t: string, assistantFound: bool, threadFound: bool)
    ensures Provision(Absent, assistantFound, threadFound, Some(a), Some(t), true)
            == Provisioned(Some(a), Some(t), true, true, Some(Saved(Some(a), Some(t))))
  {
  }

  /** A valid assistant id with a stale thread id keeps the assistant and
      replaces the thread. */
  lemma StaleThreadIsReplaced(a: string, t: Option<string>, newAssistant: Option<string>, t2: string, writeOk: bool)
    ensures var p := Provision(Saved(Some(a), t), true, false, newAssistant, Some(t2), writeOk);
            && p.assistantId == Some(a) && !p.createsAssistant
            && p.threadId == Some(t2) && p.createsThread
  {
  }
}

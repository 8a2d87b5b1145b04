# VC Assistant front-end: a verified model

The VC Assistant is a Streamlit front-end over the OpenAI Assistants API. It
evaluates startup proposals. This project models its core logic in Dafny and
proves what that logic promises:

- **Provisioning.** The assistant and thread ids are cached in a storage file
  and repaired at start-up (`get_or_create_assistant_and_thread`).
- **New conversation.** The "Start New Conversation" button replaces the thread
  and clears the session.
- **History.** The chat history is rebuilt from the thread's messages.
- **Uploads.** "Analyze All Files" uploads each unprocessed file, and marks
  it processed once its temporary copy is removed. It then
  routes the files to tools: `.csv` files get `code_interpreter`, all others
  `file_search`. It writes the message text and the run instructions.
- **Draining.** `wait_for_active_runs` is a bounded poll.
- **Run driver.** `get_response` reuses or creates a run, polls its status,
  answers tool calls and extracts the reply.
- **Tool manifest.** `create_assistant` registers a fixed tool list.

Every remote call, and the clock, is an input to the model rather than a call:

- A `retrieve` becomes a found or not-found flag.
- A creation call becomes `Option<string>`, where `None` means the call raised.
- An upload becomes one of three outcomes:
  - `Uploaded(id)`;
  - `RemoveFailed(id, reason)`: the upload succeeded, but removing the temporary copy raised;
  - `UploadFailed(reason)`.
- The clock becomes a trace of elapsed times.
- The run's status over time becomes a finite trace of polls.

Modules:

| module | file | models |
|---|---|---|
| `Strings` | strings.dfy | prefix/suffix tests, ASCII lower-casing, `str.join`, decimal rendering of a count and reading it back |
| `Messages` | messages.dfy | run statuses, roles, message content parts, the text-part concatenation loop used at both app.py:142-145 and utils.py:152-155 |
| `Attachments` | attachments.dfy | CSV routing, attachment lists and the upload message text (app.py:264-300) |
| `Instructions` | instructions.dfy | the run instructions built from the uploaded names (app.py:311-345) |
| `Uploads` | uploads.dfy | the upload loop over the processed set (app.py:221-256) |
| `ChatHistory` | history.dfy | the history rebuilt from the newest-first listing (app.py:134-146) |
| `Provisioner` | provisioner.dfy | the storage file (a class with mutable contents) and `get_or_create_assistant_and_thread` (app.py:31-92) |
| `Session` | session.dfy | `st.session_state` as a class: history load, the upload loop, the new-conversation button (app.py:127-196, 221-256) |
| `Draining` | draining.dfy | `wait_for_active_runs` (app.py:94-125) |
| `Driver` | driver.dfy | `get_response` (utils.py:123-348) |
| `Manifest` | manifest.dfy | the tool list of `create_assistant` (utils.py:6-67, 99-102) |

Where the code and its documented design disagree, the model follows the
code:

- **Two CSV tests.** Routing lower-cases the file name before testing for
  `.csv` (app.py:265-266). The instruction builder tests the name as given
  (app.py:311-312). So `DATA.CSV` is attached to `code_interpreter`, but the
  instructions give no CSV advice. `Instructions.UpperCaseCsvGetsNoCsvAdvice`
  states this.
- **Writing the storage file.** `get_or_create_assistant_and_thread` rewrites
  the file whenever both ids end up set, even if nothing was created
  (app.py:80-90). It writes nothing when a new assistant was created but the
  thread creation then raised (app.py:76-78).
- **New conversation.** `create_thread` in the new-conversation handler sits
  outside its `try` (app.py:167). When it raises, the script run aborts and
  nothing changes.
- **Statuses that poll again.** `get_response` treats every status other than
  `completed`, `requires_action`, `failed`, `expired` and `cancelled` as "poll
  again" (utils.py:143-348). That includes `cancelling` and `incomplete`. An
  `incomplete` run therefore keeps the driver polling indefinitely.
- **A failed temporary-file removal.** `os.remove` (app.py:250) runs inside
  the upload's `try`, after the record is appended (app.py:242-246) and
  before the name is marked processed (app.py:253). When it raises, the file
  stays in `file_ids` but is not marked, so the next press uploads it again.
  `Uploads.RemoveFailureIsRetried` states this.
- **Outputs whose submission raised.** The `submitted` batches of
  `Driver.DriveRun` include a batch whose `submit_tool_outputs` call raised.
  Such a batch was attempted, and the drive then ends with the error reply.

## Model

| member | source | states |
|---|---|---|
| Messages.ExtractText | app.py:142-145 | the loop's result is the concatenation, in part order, of the values of the text parts only; other parts contribute nothing |
| Messages.TextOfIsConcatOfTextValues | utils.py:152-155 | accumulating text parts one by one equals concatenating the list of text values (the reference definition) |
| Messages.TextOfAppend | app.py:142-145 | the text of a split content list is the text of the first piece followed by the text of the second |
| Attachments.BuildAttachments | app.py:264-282 | the two attachment loops produce the `file_search` attachments of the non-CSV files and the `code_interpreter` attachments of the CSV files, each in upload order; together they are the message's attachment list |
| Attachments.SelectMembers | app.py:265-266 | a record lands in the CSV list iff it is uploaded and its lower-cased name ends in `.csv`, and in the other list iff it is uploaded and does not |
| Attachments.SelectAppend | app.py:265-266 | the filter preserves upload order: filtering a concatenation concatenates the filtered parts |
| Attachments.SplitIsPermutation | app.py:265-266 | the CSV and non-CSV lists are together a permutation of the uploaded records: no file lost, none duplicated |
| Attachments.MessageAttachmentsRouting | app.py:269-300 | the combined attachments are a permutation of every uploaded record paired with its own tool; their file ids are a permutation of the uploaded ids; an attachment has `code_interpreter` exactly when it comes after all the `file_search` ones |
| Attachments.AttachmentsForIsRouted | app.py:269-282 | when every file of a list routes to the same tool, attaching them all to that tool is the same as routing each by its name |
| Attachments.MessageTextFrame | app.py:285-290 | the message text starts with the upload summary and ends with the closing request |
| Attachments.MessageCountReadsBack | app.py:285 | the number written after "I've uploaded " reads back as the number of uploaded records |
| Attachments.MessageCsvSentenceIff | app.py:287-288 | the CSV sentence follows the summary iff at least one uploaded file is a CSV, and then it lists the CSV names joined by ", " |
| Attachments.PitchAndCompetitors | app.py:264-300 | for one PDF and one CSV: the PDF is attached to `file_search`, the CSV to `code_interpreter` after it, and the text names the CSV in its CSV sentence |
| Attachments.UpperCaseCsvIsCsv | app.py:265 | an upper-case `.CSV` name is routed to `code_interpreter` |
| Strings.ParseNatToString | app.py:285 | the decimal rendering of a count reads back as that count |
| Strings.DigitsPrefixOf | app.py:285 | the digits in front of a non-digit are exactly the rendered count |
| Instructions.InstructionsReadBack | app.py:311-325 | the instructions carry the CSV advice iff some name ends with `.csv`, and the PDF-and-CSV advice iff some name ends with `.csv` and some with `.pdf` |
| Instructions.InstructionsFrame | app.py:315-345 | the instructions always open with the comprehensive-evaluation request and end with the framework sentence followed by the detailed section |
| Instructions.ComposeReadBack | app.py:311-325 | for any closing section, the CSV advice follows the opening iff some name ends with `.csv`, and the PDF-and-CSV advice follows it iff names end with both |
| Instructions.ComposeFrame | app.py:315-328 | for any closing section, the text opens with the comprehensive-evaluation request and ends with the framework sentence and that section |
| Instructions.NoAdviceWithoutCsv | app.py:317-321 | when no name ends with `.csv` exactly, neither advice sentence is added, whatever PDFs are present |
| Instructions.UpperCaseCsvGetsNoCsvAdvice | app.py:265-311 | `DATA.CSV` is routed as a CSV, but the case-sensitive test leaves both advice sentences out of its instructions |
| Uploads.UploadProcessedSet | app.py:225-256 | after the loop the processed set is the old set plus every name whose attempt ran to the end (uploaded and its temporary copy removed) |
| Uploads.UploadRecordsAreFresh | app.py:226-253 | every recorded file was unprocessed before the press and the processed set grows only by recorded names; when no removal fails, no name is recorded twice and the set grows by exactly the recorded names |
| Uploads.UploadListsRecorded | app.py:225-256 | for any processed set and any names, `file_ids` lists in upload order exactly the files whose attempt records and whose name was neither processed before nor marked by an earlier file of the press |
| Uploads.AllProcessedUploadsNothing | app.py:226 | files that are all processed already upload nothing and leave the set unchanged |
| Uploads.UploadTwiceUploadsOnce | app.py:219-256 | a second press never re-uploads a name the first press marked; with no failed removal it re-uploads nothing the first press recorded, and it uploads nothing if every first attempt ran to the end |
| Uploads.RemoveFailureIsRetried | app.py:242-253 | a file whose temporary copy could not be removed is recorded but left unmarked, so the next press uploads it again |
| Session.SessionState.UploadFiles | app.py:221-256 | the session's loop yields the processed set and `file_ids` of the upload model, with `file_names` the names of the records |
| Session.SessionState.LoadHistory | app.py:135-146 | the session history becomes the history rebuilt from the listing |
| Session.SessionState.StartNewConversation | app.py:165-187 | it succeeds iff the thread is created, the file is readable and the write succeeds; it then stores the kept assistant id with the new thread id, switches the session's thread and clears history and processed files; otherwise the file and the session are unchanged |
| ChatHistory.RebuildHistory | app.py:138-146 | the history has one entry per listed message, oldest first, each with its role and the concatenation of its text values |
| ChatHistory.NewerMessagesComeLast | app.py:139 | messages listed in front (newer) appear after the older ones in the history, in the order they were added |
| Provisioner.GetOrCreateAssistantAndThread | app.py:31-92 | the early-return code returns the ids the provisioning decision returns, and leaves the file holding what it wrote, or unchanged |
| Provisioner.CachedIdSurvivesIffFound | app.py:42-78 | a cached id is kept, with nothing created for it, iff it is present and retrievable; otherwise the creation result replaces it, for the assistant and (once an assistant id is set) for the thread |
| Provisioner.UnreadableResetsBoth | app.py:58-61 | a storage file that cannot be read resets both ids, so both are created |
| Provisioner.AssistantCreationFailure | app.py:64-70 | a failed assistant creation returns no ids and writes nothing |
| Provisioner.ThreadCreationFailure | app.py:73-78 | a failed thread creation returns, with no thread id, the cached assistant id if it survived and otherwise the newly created one, and writes nothing |
| Provisioner.WritesOnlyTheFinalPair | app.py:80-92 | the file is written iff both ids are set and the write succeeds, and then holds exactly the returned pair |
| Provisioner.FirstStartCreatesBoth | app.py:36-92 | with no file, a first start creates both ids and saves exactly them |
| Provisioner.StaleThreadIsReplaced | app.py:51-78 | a retrievable assistant with a stale thread keeps the assistant and creates a new thread |
| Draining.WaitForActiveRuns | app.py:94-125 | it returns False exactly when the elapsed time read before a listing exceeds the ceiling. Otherwise it returns True at the first listing with a run requiring action or with no queued or in-progress run. Every earlier listing was within the ceiling and had a waitable run but none requiring action |
| Draining.DrainOutcomeIsUnique | app.py:98-125 | the traces determine the loop's answer and the iteration at which it stops |
| Draining.RequiresActionWins | app.py:116-119 | a run requiring action lets the caller proceed even while others are queued or in progress |
| Draining.QueuedKeepsWaiting | app.py:109-125 | a queued or in-progress run with none requiring action keeps the loop waiting |
| Driver.ToolOutputsFor | utils.py:162-333 | outputs exist iff every call's arguments decode; then there is one output per call, in call order, keyed to the call's id, carrying the not-implemented payload; otherwise the error is that of the first call that fails to decode |
| Driver.BuildToolOutputs | utils.py:164-333 | the loop stops at the first undecodable call, and otherwise produces one not-implemented output per call in order |
| Driver.FirstErrorDecides | utils.py:166-343 | the first call that fails to decode decides the error, whatever the later calls hold |
| Driver.FirstAnswer | utils.py:149-150 | picks the first listed assistant message of the run; no earlier message qualifies, and none at all when there is no match |
| Driver.FindResponse | utils.py:143-158 | the scan returns the text of the first matching assistant message, or "No response found." |
| Driver.RespondToPoll | utils.py:143-346 | one loop iteration does what the reaction to the retrieved status prescribes: the batch it submits, if any, and the reply, if the drive ends |
| Driver.DriveStep | utils.py:137-348 | one more poll extends the batches submitted so far by that poll's batch and either ends the drive with its reply or continues with the next poll |
| Driver.GetResponse | utils.py:123-348 | a run is created iff the newest run is not queued, in progress or requiring action, and otherwise the newest run is driven; the batches submitted and the reply are those of driving that run over the poll trace |
| Driver.FirstDecidingPollDecides | utils.py:137-348 | the reply is that of the first poll that decides (completed, terminal, or an error while answering tool calls); with none, the drive is still polling |
| Driver.ReactionAnswersCalls | utils.py:160-340 | a poll submits a batch iff it is `requires_action` and every call's arguments decode, and that batch answers its own tool calls |
| Driver.DriveSubmissions | utils.py:137-348 | with k the first deciding poll, the drive submits exactly the batches of the `requires_action` polls before k, one per poll in trace order, plus poll k's batch when its submission raised; with no deciding poll, the batches of all `requires_action` polls |
| Driver.SubmittedBatchesAnswerCalls | utils.py:160-340 | every submitted batch answers one `requires_action` poll: one output per call, in order, keyed to the call's id, with the not-implemented payload |
| Driver.CompletedReply | utils.py:143-158 | on `completed` nothing is submitted; the reply is the concatenated text values of the first matching assistant message, or "No response found." when none matches |
| Driver.DecodeErrorSubmitsNothing | utils.py:168-343 | a call whose arguments fail to decode ends the drive with nothing submitted and an error reply carrying the decoder's message |
| Driver.TerminalReplyNamesStatus | utils.py:345-346 | on `failed`, `expired` or `cancelled` the reply starts with "Error: Run ended with status " and ends with the status word |
| Driver.OtherStatusesPollAgain | utils.py:137-348 | any other status, queued and in_progress included, submits nothing and polls again |
| Driver.SingleLinkedInCall | utils.py:160-340 | one `find_linkedin_profiles` call yields exactly one output, keyed to the call, with the not-implemented payload, and polling goes on |
| Manifest.ToolOrder | utils.py:6-102 | the tools are registered in the order `file_search`, `code_interpreter`, `find_linkedin_profiles`, `find_similar_startups` |
| Manifest.ManifestIsWellFormed | utils.py:6-67 | each function tool requires only parameters it declares, declares each once, and no two tools share a name |
| Manifest.RequiredParameters | utils.py:37-64 | `find_linkedin_profiles` requires the team list; `find_similar_startups` requires only the business description, and industry and keywords are optional |

## Left out

- User interface: every `st.*` display call, spinner, warning and `st.rerun`. These show text and restart the script; they compute nothing the model needs.
- `transcribe_speech` and the recording button: audio capture is I/O.
- The chat-input path at app.py:386-408. It appends a fixed guardrail sentence, calls `create_message` and `get_response`, and shows the reply. Its only logic is `get_response`, which is modelled.
- `create_message` and `create_thread`: single remote calls. Their outcomes are inputs where the model needs them.
- `create_assistant` beyond its tool list: prompt prose, name, model, `temperature` and `top_p` are configuration.
- The orchestration of app.py:258-373: creating the message, creating the run with the instructions, the calls to `wait_for_active_runs`, and appending both chat entries. Each piece it combines is modelled: attachments, text, instructions, draining and the driver.
- The storage file's JSON text, temporary upload files and their removal: storage is a value with an absent, unreadable and saved case.
- Time: `time.time()` becomes a trace of elapsed seconds, and every `time.sleep` is left out.
- The commented-out LinkedIn and Crunchbase implementations and the commented chat block: dead code.
- Exceptions outside `try` blocks other than the new-conversation one: for example `runs.list`, `runs.create` and `runs.retrieve` raising in `get_response`, or the message listing at start-up. They abort the script run.
- Strings.Lower: folds ASCII letters only. Python's `lower()` also folds other letters, but no non-ASCII character lower-cases to one of `.`, `c`, `s`, `v`, so the `.csv` test is unaffected.
- Driver.GetResponse: runs over a finite poll trace, while the source loops forever. A trace with no deciding poll ends with no reply, meaning "still polling".
- Driver.ToolOutputsFor: tool-call arguments are not decoded: only whether `json.loads` raises matters. The output is the same constant for every function name, as in the source.
- Draining.WaitForActiveRuns: requires that the elapsed trace eventually passes the ceiling, which a real clock guarantees because every waiting iteration sleeps one second.

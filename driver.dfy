/** `get_response` (utils.py:123-348): reuse the newest run if it is still
    active, otherwise create one, then poll its status until it completes,
    fails or an error stops the drive, answering tool calls on the way.
    The service is replaced by what it reports: the run listing, the id a
    created run gets, and a finite trace of what each `runs.retrieve` reports
    together with what the branch taken for it meets (the tool calls, whether
    submitting the outputs raised, the thread's message listing). The real
    loop has no bound; a trace that ends before a deciding poll leaves the
    drive still polling. */
module Driver {
  import opened Messages

  datatype Result<T> = Ok(value: T) | Err(error: string)

  /** A pending tool call; `decodeError` is what `json.loads` of its
      arguments raises, if it does. */
  datatype ToolCall = ToolCall(id: string, functionName: string, arguments: string, decodeError: Option<string>)

  datatype ToolOutput = ToolOutput(toolCallId: string, output: string)

  /** An entry of `runs.list`, newest first. */
  datatype RunRecord = RunRecord(id: string, status: RunStatus)

  /** One poll: the status retrieved, the tool calls pending (read when it is
      `requires_action`), the error submitting their outputs raises, if any,
      and the thread's messages, newest first (read when it is `completed`). */
  datatype Poll = Poll(status: RunStatus, toolCalls: seq<ToolCall>, submitError: Option<string>,
                       messages: seq<ThreadMessage>)

  /** `json.dumps({"error": "Function not implemented"})` */
  const NotImplemented := "{\"error\": \"Function not implemented\"}"
  const NoResponse := "No response found."
  const FunctionErrorLead := "Error in processing functions: "
  const TerminalLead := "Error: Run ended with status "

  /** Statuses for which the newest run is reused. */
  predicate IsActive(s: RunStatus) {
    s == Queued || s == InProgress || s == RequiresAction
  }

  predicate IsTerminal(s: RunStatus) {
    s == Failed || s == Expired || s == Cancelled
  }

  // ----- tool outputs -----

  /** The outputs for a batch of tool calls: an error as soon as one call's
      arguments fail to decode, otherwise the fixed payload for every call. */
  function ToolOutputsFor(calls: seq<ToolCall>): (r: Result<seq<ToolOutput>>)
    ensures r.Ok? <==> forall i :: 0 <= i < |calls| ==> calls[i].decodeError.None?
    ensures r.Ok? ==> (|r.value| == |calls|
              && forall i :: 0 <= i < |calls| ==> r.value[i] == ToolOutput(calls[i].id, NotImplemented))
    ensures r.Err? ==> (exists k :: (0 <= k < |calls| && calls[k].decodeError == Some(r.error)
              && forall j :: 0 <= j < k ==> calls[j].decodeError.None?))
    decreases |calls|
  {
    if calls == [] then Ok([])
    else if calls[0].decodeError.Some? then Err(calls[0].decodeError.value)
    else match ToolOutputsFor(calls[1..])
      case Ok(rest) => Ok([ToolOutput(calls[0].id, NotImplemented)] + rest)
      case Err(e) => Err(e)
  }

  /** The `for tool_call in tool_calls` loop, which stops at the first
      argument that fails to decode. */
  method BuildToolOutputs(calls: seq<ToolCall>) returns (r: Result<seq<ToolOutput>>)
    ensures r.Ok? ==> (|r.value| == |calls|
              && forall i :: 0 <= i < |calls| ==> r.value[i] == ToolOutput(calls[i].id, NotImplemented))
    ensures r == ToolOutputsFor(calls)
  {
    var outputs: seq<ToolOutput> := [];
    var i := 0;
    while i < |calls|
      invariant 0 <= i <= |calls|
      invariant forall j :: 0 <= j < i ==> calls[j].decodeError.None?
      invariant |outputs| == i
      invariant forall j :: 0 <= j < i ==> outputs[j] == ToolOutput(calls[j].id, NotImplemented)
    {
      if calls[i].decodeError.Some? {
        r := Err(calls[i].decodeError.value);
        FirstErrorDecides(calls, i);
        return;
      }
      outputs := outputs + [ToolOutput(calls[i].id, NotImplemented)];
      i := i + 1;
    }
    assert ToolOutputsFor(calls).value == outputs;
    r := Ok(outputs);
  }

  lemma {:induction false} FirstErrorDecides(calls: seq<ToolCall>, k: nat)
    requires k < |calls| && calls[k].decodeError.Some?
    requires forall j :: 0 <= j < k ==> calls[j].decodeError.None?
    ensures ToolOutputsFor(calls) == Err(calls[k].decodeError.value)
    decreases k
  {
    if k > 0 {
      FirstErrorDecides(calls[1..], k - 1);
    }
  }

  // ----- the reply of a completed run -----

  predicate AnswersRun(m: ThreadMessage, runId: string) {
    m.role == Assistant && m.runId == Some(runId)
  }

  /** The index of the first listed assistant message of the run. */
  function FirstAnswer(messages: seq<ThreadMessage>, runId: string): (r: Option<nat>)
    ensures r.Some? ==> (r.value < |messages| && AnswersRun(messages[r.value], runId)
              && forall j :: 0 <= j < r.value ==> !AnswersRun(messages[j], runId))
    ensures r.None? ==> forall j :: 0 <= j < |messages| ==> !AnswersRun(messages[j], runId)
    decreases |messages|
  {
    if messages == [] then None
    else if AnswersRun(messages[0], runId) then Some(0)
    else match FirstAnswer(messages[1..], runId)
      case Some(k) => Some(k + 1)
      case None => None
  }

  /** The text returned on `completed`. */
  function ResponseText(messages: seq<ThreadMessage>, runId: string): string {
    match FirstAnswer(messages, runId)
    case Some(k) => TextOf(messages[k].content)
    case None => NoResponse
  }

  /** The scan of the message listing on `completed`. */
  method FindResponse(messages: seq<ThreadMessage>, runId: string) returns (text: string)
    ensures text == ResponseText(messages, runId)
  {
    var i := 0;
    while i < |messages|
      invariant 0 <= i <= |messages|
      invariant forall j :: 0 <= j < i ==> !AnswersRun(messages[j], runId)
    {
      if messages[i].role == Assistant && messages[i].runId == Some(runId) {
        text := ExtractText(messages[i].content);
        return;
      }
      i := i + 1;
    }
    text := NoResponse;
  }

  // ----- one poll -----

  /** What one poll leads to: the outputs submitted, if any, and the reply
      returned, if the drive ends here. */
  datatype Reaction = Reaction(submitted: Option<seq<ToolOutput>>, reply: Option<string>)

  function React(p: Poll, runId: string): Reaction {
    if p.status == Completed then
      Reaction(None, Some(ResponseText(p.messages, runId)))
    else if p.status == RequiresAction then
      match ToolOutputsFor(p.toolCalls)
      case Err(e) => Reaction(None, Some(FunctionErrorLead + e))
      case Ok(outputs) =>
        if p.submitError.Some? then Reaction(Some(outputs), Some(FunctionErrorLead + p.submitError.value))
        else Reaction(Some(outputs), None)
    else if IsTerminal(p.status) then
      Reaction(None, Some(TerminalLead + StatusName(p.status)))
    else
      Reaction(None, None)
  }

  /** The batches submitted over a drive and the reply, if one was reached. */
  datatype Drive = Drive(submitted: seq<seq<ToolOutput>>, reply: Option<string>)

  /** The submitted batches as a list: none, or the one batch. */
  function Batches(submitted: Option<seq<ToolOutput>>): seq<seq<ToolOutput>> {
    if submitted.Some? then [submitted.value] else []
  }

  /** Driving run `runId` over the poll trace. */
  function DriveRun(runId: string, trace: seq<Poll>): Drive
    decreases |trace|
  {
    if trace == [] then Drive([], None)
    else
      var r := React(trace[0], runId);
      if r.reply.Some? then Drive(Batches(r.submitted), r.reply)
      else
        var rest := DriveRun(runId, trace[1..]);
        Drive(Batches(r.submitted) + rest.submitted, rest.reply)
  }

  /** One iteration of the polling loop, for the status just retrieved. */
  method RespondToPoll(p: Poll, runId: string) returns (submitted: Option<seq<ToolOutput>>, reply: Option<string>)
    ensures Reaction(submitted, reply) == React(p, runId)
  {
    submitted, reply := None, None;
    if p.status == Completed {
      var text := FindResponse(p.messages, runId);
      reply := Some(text);
    } else if p.status == RequiresAction {
      var outputs := BuildToolOutputs(p.toolCalls);
      if outputs.Err? {
        reply := Some(FunctionErrorLead + outputs.error);
      } else {
        submitted := Some(outputs.value);
        if p.submitError.Some? {
          reply := Some(FunctionErrorLead + p.submitError.value);
        }
      }
    } else if IsTerminal(p.status) {
      reply := Some(TerminalLead + StatusName(p.status));
    }
  }

  /** Driving the trace from poll `i` is reacting to that poll, then, unless
      that decided, driving from poll `i + 1`. */
  lemma DriveStep(runId: string, trace: seq<Poll>, i: nat, before: seq<seq<ToolOutput>>,
                  sent: Option<seq<ToolOutput>>, decided: Option<string>)
    requires i < |trace|
    requires Reaction(sent, decided) == React(trace[i], runId)
    requires var rest := DriveRun(runId, trace[i..]);
             DriveRun(runId, trace) == Drive(before + rest.submitted, rest.reply)
    ensures decided.Some? ==> DriveRun(runId, trace) == Drive(before + Batches(sent), decided)
    ensures decided.None? ==>
              var next := DriveRun(runId, trace[i + 1..]);
              DriveRun(runId, trace) == Drive(before + Batches(sent) + next.submitted, next.reply)
  {
    assert trace[i..][0] == trace[i];
    assert trace[i..][1..] == trace[i + 1..];
    if decided.None? {
      var next := DriveRun(runId, trace[i + 1..]);
      assert before + (Batches(sent) + next.submitted) == before + Batches(sent) + next.submitted;
    }
  }

  /** `get_response`. */
  method GetResponse(runs: seq<RunRecord>, newRunId: string, trace: seq<Poll>)
    returns (created: bool, runId: string, submitted: seq<seq<ToolOutput>>, reply: Option<string>)
    ensures created <==> !(|runs| > 0 && IsActive(runs[0].status))
    ensures runId == if created then newRunId else runs[0].id
    ensures Drive(submitted, reply) == DriveRun(runId, trace)
  {
    if |runs| > 0 && IsActive(runs[0].status) {
      created, runId := false, runs[0].id;
    } else {
      created, runId := true, newRunId;
    }
    submitted, reply := [], None;
    var i := 0;
    assert trace[0..] == trace;
    while i < |trace|
      invariant 0 <= i <= |trace|
      invariant var rest := DriveRun(runId, trace[i..]);
                DriveRun(runId, trace) == Drive(submitted + rest.submitted, rest.reply)
    {
      var sent, decided := RespondToPoll(trace[i], runId);
      DriveStep(runId, trace, i, submitted, sent, decided);
      submitted := submitted + Batches(sent);
      if decided.Some? {
        reply := decided;
        return;
      }
      i := i + 1;
    }
    assert trace[i..] == [];
  }

  // ----- properties of the drive -----

  /** The reply is decided by the first poll that decides anything; polls
      before it only poll again or submit outputs. With no deciding poll the
      drive is still polling. */
  lemma {:induction false} FirstDecidingPollDecides(runId: string, trace: seq<Poll>, k: nat)
    requires k <= |trace|
    requires forall j :: 0 <= j < k ==> React(trace[j], runId).reply.None?
    ensures k < |trace| && React(trace[k], runId).reply.Some? ==>
              DriveRun(runId, trace).reply == React(trace[k], runId).reply
    ensures k == |trace| ==> DriveRun(runId, trace).reply.None?
    decreases k
  {
    if k > 0 {
      FirstDecidingPollDecides(runId, trace[1..], k - 1);
    } else if k == |trace| {
      assert trace == [];
    }
  }

  /** `batch` answers the tool calls of poll `p`: one output per call, in
      call order, each keyed to its call and carrying the fixed payload. */
  predicate AnswersCalls(batch: seq<ToolOutput>, p: Poll) {
    p.status == RequiresAction
    && |batch| == |p.toolCalls|
    && forall i :: 0 <= i < |batch| ==> batch[i] == ToolOutput(p.toolCalls[i].id, NotImplemented)
  }

  /** A poll submits a batch iff it is `requires_action` and every call's
      arguments decode, and the batch answers its own tool calls. */
  lemma ReactionAnswersCalls(p: Poll, runId: string)
    ensures React(p, runId).submitted.Some? <==> p.status == RequiresAction && ToolOutputsFor(p.toolCalls).Ok?
    ensures React(p, runId).submitted.Some? ==> AnswersCalls(React(p, runId).submitted.value, p)
  {
  }

  /** Reference definition: the batch a poll's calls produce, when it is
      `requires_action` and they all decode. */
  function PollBatch(p: Poll): seq<seq<ToolOutput>> {
    if p.status == RequiresAction && ToolOutputsFor(p.toolCalls).Ok? then [ToolOutputsFor(p.toolCalls).value] else []
  }

  /** The batches of the first `k` polls, in trace order. */
  function PollBatches(trace: seq<Poll>, k: nat): seq<seq<ToolOutput>>
    requires k <= |trace|
    decreases k
  {
    if k == 0 then [] else PollBatch(trace[0]) + PollBatches(trace[1..], k - 1)
  }

  /** Exactly which batches the drive submits: with `k` the first deciding
      poll, those of the `requires_action` polls before it, one per poll in
      trace order, plus poll `k`'s own when its submission raised; with no
      deciding poll, those of every `requires_action` poll. */
  lemma {:induction false} DriveSubmissions(runId: string, trace: seq<Poll>, k: nat)
    requires k <= |trace|
    requires forall j :: 0 <= j < k ==> React(trace[j], runId).reply.None?
    ensures k < |trace| && React(trace[k], runId).reply.Some? ==>
              DriveRun(runId, trace).submitted == PollBatches(trace, k + 1)
    ensures k == |trace| ==> DriveRun(runId, trace).submitted == PollBatches(trace, k)
    decreases k
  {
    if trace != [] {
      assert Batches(React(trace[0], runId).submitted) == PollBatch(trace[0]);
      if k > 0 {
        forall j | 0 <= j < k - 1 ensures React(trace[1..][j], runId).reply.None? {
          assert trace[1..][j] == trace[j + 1];
        }
        DriveSubmissions(runId, trace[1..], k - 1);
      } else {
        assert PollBatches(trace[1..], 0) == [];
      }
    }
  }

  /** Every submitted batch answers the tool calls of one `requires_action`
      poll of the trace. */
  lemma {:induction false} SubmittedBatchesAnswerCalls(runId: string, trace: seq<Poll>)
    ensures forall b :: b in DriveRun(runId, trace).submitted ==>
              exists j :: 0 <= j < |trace| && AnswersCalls(b, trace[j])
    decreases |trace|
  {
    if trace != [] {
      SubmittedBatchesAnswerCalls(runId, trace[1..]);
      var r := React(trace[0], runId);
      ReactionAnswersCalls(trace[0], runId);
      forall b | b in DriveRun(runId, trace).submitted
        ensures exists j :: 0 <= j < |trace| && AnswersCalls(b, trace[j])
      {
        if b in Batches(r.submitted) {
          assert AnswersCalls(b, trace[0]);
        } else {
          assert b in DriveRun(runId, trace[1..]).submitted;
          var j :| 0 <= j < |trace[1..]| && AnswersCalls(b, trace[1..][j]);
          assert trace[j + 1] == trace[1..][j];
        }
      }
    }
  }

  /** On `completed` the reply is the text of the first listed assistant
      message of the driven run, or the fixed sentinel when there is none. */
  lemma CompletedReply(p: Poll, runId: string)
    requires p.status == Completed
    ensures var reply := React(p, runId).reply;
            && React(p, runId).submitted.None?
            && reply.Some?
            && ((exists k :: 0 <= k < |p.messages| && AnswersRun(p.messages[k], runId)) ==>
                  exists k :: 0 <= k < |p.messages| && AnswersRun(p.messages[k], runId)
                    && (forall j :: 0 <= j < k ==> !AnswersRun(p.messages[j], runId))
                    && reply.value == Concat(TextValues(p.messages[k].content)))
            && ((forall k :: 0 <= k < |p.messages| ==> !AnswersRun(p.messages[k], runId)) ==>
                  reply.value == NoResponse)
  {
    match FirstAnswer(p.messages, runId)
    case Some(k) =>
      TextOfIsConcatOfTextValues(p.messages[k].content);
    case None =>
  }

  /** A call whose arguments fail to decode stops the drive before anything
      is submitted, with an error reply carrying the decoder's message. */
  lemma DecodeErrorSubmitsNothing(p: Poll, runId: string, k: nat)
    requires p.status == RequiresAction
    requires k < |p.toolCalls| && p.toolCalls[k].decodeError.Some?
    requires forall j :: 0 <= j < k ==> p.toolCalls[j].decodeError.None?
    ensures React(p, runId) == Reaction(None, Some(FunctionErrorLead + p.toolCalls[k].decodeError.value))
  {
    FirstErrorDecides(p.toolCalls, k);
  }

  /** A `failed`, `expired` or `cancelled` run ends the drive with a reply
      that ends with the status word. */
  lemma TerminalReplyNamesStatus(p: Poll, runId: string)
    requires IsTerminal(p.status)
    ensures var reply := React(p, runId).reply;
            && reply.Some?
            && |StatusName(p.status)| <= |reply.value|
            && reply.value[|reply.value| - |StatusName(p.status)|..] == StatusName(p.status)
            && reply.value[..|TerminalLead|] == TerminalLead
  {
    var reply := TerminalLead + StatusName(p.status);
    assert reply[|reply| - |StatusName(p.status)|..] == StatusName(p.status);
    assert reply[..|TerminalLead|] == TerminalLead;
  }

  /** Any other status, queued and in_progress included, only polls again. */
  lemma OtherStatusesPollAgain(p: Poll, runId: string)
    requires p.status != Completed && p.status != RequiresAction && !IsTerminal(p.status)
    ensures React(p, runId) == Reaction(None, None)
  {
  }

  /** One `find_linkedin_profiles` call: exactly one output, keyed to the
      call, with the not-implemented payload, and polling goes on. */
  lemma SingleLinkedInCall(id: string, args: string, runId: string, messages: seq<ThreadMessage>)
    ensures React(Poll(RequiresAction, [ToolCall(id, "find_linkedin_profiles", args, None)], None, messages), runId)
            == Reaction(Some([ToolOutput(id, NotImplemented)]), None)
  {
    var calls := [ToolCall(id, "find_linkedin_profiles", args, None)];
    assert ToolOutputsFor(calls).value == [ToolOutput(id, NotImplemented)];
  }
}

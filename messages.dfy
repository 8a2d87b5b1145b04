/** What the hosted conversation service hands back, reduced to the parts the
    front-end inspects: run statuses and the messages of a thread, each an
    ordered list of content parts of which only the text parts are read. */
module Messages {

  datatype Option<T> = None | Some(value: T)

  /** Every status the run endpoints report. */
  datatype RunStatus =
    | Queued | InProgress | RequiresAction | Cancelling
    | Cancelled | Failed | Completed | Incomplete | Expired

  /** The status word the service uses, and the one f-strings print. */
  function StatusName(s: RunStatus): string {
    match s
    case Queued => "queued"
    case InProgress => "in_progress"
    case RequiresAction => "requires_action"
    case Cancelling => "cancelling"
    case Cancelled => "cancelled"
    case Failed => "failed"
    case Completed => "completed"
    case Incomplete => "incomplete"
    case Expired => "expired"
  }

  datatype Role = User | Assistant

  /** A content part: `type == "text"` parts carry `text.value`; the others
      (image files, image urls, refusals) are skipped by every reader here. */
  datatype ContentPart = TextPart(value: string) | OtherPart

  /** A thread message as listed: its role, the run that produced it, if any,
      and its content parts in order. */
  datatype ThreadMessage = ThreadMessage(role: Role, runId: Option<string>, content: seq<ContentPart>)

  /** A message of the local chat history. */
  datatype ChatMessage = ChatMessage(role: Role, content: string)

  /** The concatenation, in part order, of the text parts. */
  function TextOf(parts: seq<ContentPart>): string {
    if parts == [] then ""
    else TextOf(parts[..|parts| - 1]) + PartText(parts[|parts| - 1])
  }

  function PartText(p: ContentPart): string {
    match p
    case TextPart(v) => v
    case OtherPart => ""
  }

  /** The text parts alone, in order. */
  function TextValues(parts: seq<ContentPart>): seq<string> {
    if parts == [] then []
    else if parts[0].TextPart? then [parts[0].value] + TextValues(parts[1..])
    else TextValues(parts[1..])
  }

  function Concat(ss: seq<string>): string {
    if ss == [] then "" else ss[0] + Concat(ss[1..])
  }

  lemma {:induction false} ConcatAppend(a: seq<string>, b: seq<string>)
    ensures Concat(a + b) == Concat(a) + Concat(b)
    decreases |a|
  {
    if a == [] {
      assert a + b == b;
    } else {
      assert (a + b)[1..] == a[1..] + b;
      ConcatAppend(a[1..], b);
    }
  }

  lemma {:induction false} TextValuesAppend(a: seq<ContentPart>, b: seq<ContentPart>)
    ensures TextValues(a + b) == TextValues(a) + TextValues(b)
    decreases |a|
  {
    if a == [] {
      assert a + b == b;
    } else {
      assert (a + b)[1..] == a[1..] + b;
      TextValuesAppend(a[1..], b);
    }
  }

  /** Text extraction splits over concatenation of part lists. */
  lemma {:induction false} TextOfAppend(a: seq<ContentPart>, b: seq<ContentPart>)
    ensures TextOf(a + b) == TextOf(a) + TextOf(b)
    decreases |b|
  {
    if b == [] {
      assert a + b == a;
    } else {
      var b' := b[..|b| - 1];
      assert (a + b)[..|a + b| - 1] == a + b';
      assert (a + b)[|a + b| - 1] == b[|b| - 1];
      TextOfAppend(a, b');
    }
  }

  /** The extracted text is exactly the text values, joined with nothing,
      in order: non-text parts contribute nothing. */
  lemma {:induction false} TextOfIsConcatOfTextValues(parts: seq<ContentPart>)
    ensures TextOf(parts) == Concat(TextValues(parts))
    decreases |parts|
  {
    if parts != [] {
      var first, rest := parts[..1], parts[1..];
      assert parts == first + rest;
      TextOfAppend(first, rest);
      TextValuesAppend(first, rest);
      ConcatAppend(TextValues(first), TextValues(rest));
      assert first[..0] == [];
      assert TextOf(first) == PartText(parts[0]);
      assert TextValues(first) == TextValues([parts[0]]);
      assert Concat(TextValues(first)) == PartText(parts[0]);
      TextOfIsConcatOfTextValues(rest);
    }
  }

  /** The `content += part.text.value` loop over a message's parts. */
  method ExtractText(parts: seq<ContentPart>) returns (content: string)
    ensures content == TextOf(parts)
    ensures content == Concat(TextValues(parts))
  {
    content := "";
    var i := 0;
    while i < |parts|
      invariant 0 <= i <= |parts|
      invariant content == TextOf(parts[..i])
    {
      assert parts[..i + 1][..i] == parts[..i];
      if parts[i].TextPart? {
        content := content + parts[i].value;
      }
      i := i + 1;
    }
    assert parts[..|parts|] == parts;
    TextOfIsConcatOfTextValues(parts);
  }
}

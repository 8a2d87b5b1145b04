/** The chat history rebuilt from the thread at session start (app.py:138-146):
    the service lists messages newest first, the history shows them oldest
    first, each as its role and the concatenation of its text parts. */
module ChatHistory {
  import opened Messages

  function Entry(m: ThreadMessage): ChatMessage {
    ChatMessage(m.role, TextOf(m.content))
  }

  /** The history for a newest-first listing. */
  function History(listed: seq<ThreadMessage>): (h: seq<ChatMessage>)
    ensures |h| == |listed|
  {
    seq(|listed|, i requires 0 <= i < |listed| => Entry(listed[|listed| - 1 - i]))
  }

  /** The loop over `reversed(messages.data)`, with the inner `content +=` loop. */
  method RebuildHistory(listed: seq<ThreadMessage>) returns (history: seq<ChatMessage>)
    ensures |history| == |listed|
    ensures forall i :: 0 <= i < |listed| ==>
              history[i].role == listed[|listed| - 1 - i].role
              && history[i].content == Concat(TextValues(listed[|listed| - 1 - i].content))
    ensures history == History(listed)
  {
    history := [];
    var k := |listed|;
    while k > 0
      invariant 0 <= k <= |listed|
      invariant |history| == |listed| - k
      invariant forall i :: 0 <= i < |history| ==> history[i] == Entry(listed[|listed| - 1 - i])
    {
      k := k - 1;
      var content := ExtractText(listed[k].content);
      history := history + [ChatMessage(listed[k].role, content)];
    }
    forall i | 0 <= i < |listed|
      ensures history[i].content == Concat(TextValues(listed[|listed| - 1 - i].content))
    {
      TextOfIsConcatOfTextValues(listed[|listed| - 1 - i].content);
    }
  }

  /** Messages added to the thread later are listed in front of the older ones
      and show up after them in the history, in the order they were added. */
  lemma NewerMessagesComeLast(newer: seq<ThreadMessage>, older: seq<ThreadMessage>)
    ensures History(newer + older) == History(older) + History(newer)
  {
    var all := newer + older;
    forall i | 0 <= i < |all|
      ensures History(all)[i] == (History(older) + History(newer))[i]
    {
      if i < |older| {
        assert all[|all| - 1 - i] == older[|older| - 1 - i];
      } else {
        assert all[|all| - 1 - i] == newer[|newer| - 1 - (i - |older|)];
      }
    }
  }
}

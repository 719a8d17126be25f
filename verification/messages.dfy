/** The transcript the chat loop keeps: messages, their content blocks, and
    the stop reasons the chat service reports. */
module Messages {
  import Tools

  datatype Role = User | Assistant

  /** A content block. `OtherBlock` stands for every block kind the loop
      neither prints nor dispatches (thinking blocks and the like). */
  datatype Block =
    | TextBlock(text: string)
    | ToolUseBlock(id: string, name: string, input: Tools.Input)
    | ToolResultBlock(toolUseId: string, content: string)
    | OtherBlock(kind: string)

  /** A message's content: the human's line as a plain string, or blocks. */
  datatype Content = PlainText(text: string) | Blocks(blocks: seq<Block>)

  datatype Message = Message(role: Role, content: Content)

  datatype StopReason = EndTurn | MaxTokens | StopSequence | ToolUse | PauseTurn | Refusal

  /** The `tool_use` blocks of `bs`, in order. */
  function ToolUses(bs: seq<Block>): (us: seq<Block>)
    ensures |us| <= |bs|
    ensures forall i :: 0 <= i < |us| ==> us[i].ToolUseBlock? && us[i] in bs
  {
    if bs == [] then []
    else if bs[0].ToolUseBlock? then [bs[0]] + ToolUses(bs[1..])
    else ToolUses(bs[1..])
  }

  /** Filtering distributes over concatenation: the tool uses of `a + b` are
      those of `a` followed by those of `b`, each in its original order. */
  lemma {:induction false} ToolUsesAppend(a: seq<Block>, b: seq<Block>)
    ensures ToolUses(a + b) == ToolUses(a) + ToolUses(b)
    decreases |a|
  {
    if a != [] {
      assert (a + b)[1..] == a[1..] + b;
      ToolUsesAppend(a[1..], b);
    } else {
      assert a + b == b;
    }
  }

  /** No tool use is dropped: every `tool_use` block of `bs` is kept. */
  lemma {:induction false} ToolUsesComplete(bs: seq<Block>)
    ensures forall i :: 0 <= i < |bs| && bs[i].ToolUseBlock? ==> bs[i] in ToolUses(bs)
    decreases |bs|
  {
    if bs != [] {
      ToolUsesComplete(bs[1..]);
      assert forall i :: 1 <= i < |bs| ==> bs[i] == bs[1..][i - 1];
    }
  }

  /** `results` answers `uses` one to one and in order: the i-th result
      carries the id of the i-th tool use. */
  predicate Answers(uses: seq<Block>, results: seq<Block>)
  {
    && |results| == |uses|
    && forall i :: 0 <= i < |results| ==>
         && results[i].ToolResultBlock?
         && uses[i].ToolUseBlock?
         && results[i].toolUseId == uses[i].id
  }

  /** A user message of tool results (the human's lines are plain text). */
  predicate IsToolResults(m: Message)
  {
    m.role == User && m.content.Blocks?
  }

  /** The tool uses an assistant message asks for (none for other messages). */
  function Requests(m: Message): (us: seq<Block>)
  {
    if m.role == Assistant && m.content.Blocks? then ToolUses(m.content.blocks) else []
  }

  /** `u` is the tool-result message answering assistant message `a`. */
  predicate AnsweredBy(a: Message, u: Message)
  {
    && a.role == Assistant && a.content.Blocks?
    && IsToolResults(u)
    && |u.content.blocks| > 0
    && Answers(ToolUses(a.content.blocks), u.content.blocks)
  }
}

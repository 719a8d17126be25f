/** The chat loop of `index.ts` as a state machine. One `Step` is one pass
    through the body of `while (true)`: prompt the human unless the last
    stop reason was `tool_use`, call the model, append its answer, run every
    `tool_use` block through the registry, and append the results.

    The human, the chat service and the tools' I/O are oracles collected in
    a `World`; the state counts how many lines, replies and tool calls it has
    consumed so far, and those counts index the oracles. */
module Agent {
  import opened Common
  import opened Messages
  import Tools

  /** One answer of the chat service: the response's content and stop reason,
      or a rejected request. */
  datatype Reply =
    | Response(content: seq<Block>, stopReason: Option<StopReason>)
    | ServiceError(message: string)

  datatype World = World(
    input: nat -> Option<string>,   // the human's n-th line; None when stdin is closed
    reply: nat -> Reply,            // the chat service's n-th reply
    io: Tools.Io)                   // what the tool handlers meet

  /** `Exited`: the human ended the session. `Aborted`: an error escaped
      `chat()` and reached the top-level `catch`. */
  datatype Phase = Running | Exited | Aborted(error: string)

  datatype State = State(
    messages: seq<Message>,
    stopReason: Option<StopReason>,
    phase: Phase,
    prompts: nat,    // lines read from the human
    calls: nat,      // requests sent to the chat service
    toolCalls: nat)  // handlers run

  function Init(): (s: State)
  {
    State([], None, Running, 0, 0, 0)
  }

  /** The loop asks the human for a line unless the model stopped to use a tool. */
  predicate AwaitsHuman(s: State)
  {
    s.stopReason != Some(ToolUse)
  }

  // ---------------------------------------------------------------------
  // Ending the session

  function LowerChar(c: char): (l: char)
  {
    if 'A' <= c <= 'Z' then (c as int + 32) as char else c
  }

  /** `toLowerCase`, on the letters that can matter when comparing with "exit". */
  function Lower(s: string): (r: string)
    ensures |r| == |s|
    ensures forall i :: 0 <= i < |s| ==> r[i] == LowerChar(s[i])
  {
    if s == [] then [] else [LowerChar(s[0])] + Lower(s[1..])
  }

  /** The line ends the session: input is closed, the line is empty, or it
      reads "exit" once lower-cased. */
  predicate EndsSession(line: Option<string>)
  {
    line.None? || line.value == "" || Lower(line.value) == "exit"
  }

  /** An upper-case letter and its lower-case form are 32 code points apart. */
  lemma LowerCharIs(c: char, l: char)
    requires 'a' <= l <= 'z'
    ensures LowerChar(c) == l <==> c == l || c as int == l as int - 32
  {
  }

  /** Either case of `l`. */
  predicate Spells(c: char, l: char)
  {
    c == l || c as int == l as int - 32
  }

  /** Two four-character strings are equal when they agree at each index. */
  lemma EqualByIndex(a: string, b: string)
    requires |a| == 4 && |b| == 4
    ensures a == b <==> a[0] == b[0] && a[1] == b[1] && a[2] == b[2] && a[3] == b[3]
  {
    if a[0] == b[0] && a[1] == b[1] && a[2] == b[2] && a[3] == b[3] {
      assert forall i | 0 <= i < 4 :: a[i] == b[i];
    }
  }

  /** The lines that end the session besides an empty one: "exit" spelt with
      any mix of upper- and lower-case letters, and nothing else. */
  lemma ExitInAnyCase(s: string)
    ensures Lower(s) == "exit" <==>
      |s| == 4 && Spells(s[0], 'e') && Spells(s[1], 'x') && Spells(s[2], 'i') && Spells(s[3], 't')
  {
    var e := "exit";
    var l := Lower(s);
    if |s| == 4 {
      EqualByIndex(l, e);
      assert e[0] == 'e' && e[1] == 'x' && e[2] == 'i' && e[3] == 't';
      LowerCharIs(s[0], 'e');
      LowerCharIs(s[1], 'x');
      LowerCharIs(s[2], 'i');
      LowerCharIs(s[3], 't');
    } else {
      assert |l| != |e|;
    }
  }

  // ---------------------------------------------------------------------
  // Tool dispatch

  predicate Known(name: string)
  {
    Tools.Lookup(name).Some?
  }

  /** The handler output for a tool use naming a registered tool, run as
      the session's `k`-th tool call. */
  function Dispatch(u: Block, io: Tools.Io, k: nat): (result: string)
    requires u.ToolUseBlock? && Known(u.name)
  {
    Tools.Handle(Tools.Lookup(u.name).value, u.input, io, k)
  }

  /** `processToolUse`: look the tool up and run it, or throw
      `Unknown tool: <name>`. */
  function ProcessToolUse(u: Block, io: Tools.Io, k: nat): (r: Result<Block>)
    requires u.ToolUseBlock?
  {
    if Known(u.name) then Success(ToolResultBlock(u.id, Dispatch(u, io, k)))
    else Failure("Unknown tool: " + u.name)
  }

  /** Index of the first tool use naming no registered tool; `|us|` when
      every tool is known. */
  function FirstUnknown(us: seq<Block>): (j: nat)
    requires forall i :: 0 <= i < |us| ==> us[i].ToolUseBlock?
    ensures j <= |us|
    ensures forall i :: 0 <= i < j ==> Known(us[i].name)
    ensures j < |us| ==> !Known(us[j].name)
  {
    if us == [] || !Known(us[0].name) then 0 else 1 + FirstUnknown(us[1..])
  }

  /** The `for` loop over the response's blocks: every `tool_use` block, in
      order, becomes one tool result; the first unknown tool aborts it. The
      `j`-th tool use is the session's `k + j`-th tool call. */
  function ProcessBlocks(bs: seq<Block>, io: Tools.Io, k: nat): (r: Result<seq<Block>>)
  {
    if bs == [] then Success([])
    else if !bs[0].ToolUseBlock? then ProcessBlocks(bs[1..], io, k)
    else
      match ProcessToolUse(bs[0], io, k)
      case Failure(e) => Failure(e)
      case Success(res) =>
        match ProcessBlocks(bs[1..], io, k + 1)
        case Failure(e) => Failure(e)
        case Success(rest) => Success([res] + rest)
  }

  /** The blocks are processed without error exactly when every tool use
      names a registered tool; otherwise the error names the first one that
      does not. */
  lemma {:induction false} ProcessBlocksFails(bs: seq<Block>, io: Tools.Io, k: nat)
    ensures ProcessBlocks(bs, io, k).Success? <==> FirstUnknown(ToolUses(bs)) == |ToolUses(bs)|
    ensures ProcessBlocks(bs, io, k).Failure? ==>
      ProcessBlocks(bs, io, k).error == "Unknown tool: " + ToolUses(bs)[FirstUnknown(ToolUses(bs))].name
    decreases |bs|
  {
    if bs == [] {
    } else if !bs[0].ToolUseBlock? {
      assert ToolUses(bs) == ToolUses(bs[1..]);
      ProcessBlocksFails(bs[1..], io, k);
    } else {
      ToolUsesOfToolUse(bs);
      ProcessBlocksFails(bs[1..], io, k + 1);
    }
  }

  /** `rs` holds one result per tool use of `bs`, in order: result `j` carries
      tool use `j`'s id and the output of its handler, run as tool call
      `k + j`; and every one of those tools is registered. */
  predicate ResultsMatch(bs: seq<Block>, io: Tools.Io, k: nat, rs: seq<Block>)
  {
    && |rs| == |ToolUses(bs)|
    && forall j :: 0 <= j < |rs| ==>
         Known(ToolUses(bs)[j].name)
         && rs[j] == ToolResultBlock(ToolUses(bs)[j].id, Dispatch(ToolUses(bs)[j], io, k + j))
  }

  /** A successful pass yields exactly the results `ResultsMatch` describes. */
  lemma {:induction false} ProcessBlocksResults(bs: seq<Block>, io: Tools.Io, k: nat)
    requires ProcessBlocks(bs, io, k).Success?
    ensures ResultsMatch(bs, io, k, ProcessBlocks(bs, io, k).value)
    decreases |bs|
  {
    if bs == [] {
    } else if !bs[0].ToolUseBlock? {
      assert ToolUses(bs) == ToolUses(bs[1..]);
      ProcessBlocksResults(bs[1..], io, k);
    } else {
      ProcessBlocksCons(bs, io, k);
      ProcessBlocksResults(bs[1..], io, k + 1);
      ResultsMatchCons(bs, io, k, ProcessBlocks(bs[1..], io, k + 1).value);
    }
  }

  /** Results matching the tool uses after the head extend, by the head's
      result, to results matching all of them. */
  lemma ResultsMatchCons(bs: seq<Block>, io: Tools.Io, k: nat, rest: seq<Block>)
    requires bs != [] && bs[0].ToolUseBlock? && Known(bs[0].name)
    requires ResultsMatch(bs[1..], io, k + 1, rest)
    ensures ResultsMatch(bs, io, k, [ToolResultBlock(bs[0].id, Dispatch(bs[0], io, k))] + rest)
  {
    ToolUsesOfToolUse(bs);
    var us := ToolUses(bs);
    var us' := ToolUses(bs[1..]);
    var rs := [ToolResultBlock(bs[0].id, Dispatch(bs[0], io, k))] + rest;
    forall j | 0 <= j < |rs|
      ensures Known(us[j].name) && rs[j] == ToolResultBlock(us[j].id, Dispatch(us[j], io, k + j))
    {
      if j > 0 {
        assert rs[j] == rest[j - 1];
        assert us[j] == us'[j - 1];
      }
    }
  }

  /** Unfolds one successful tool use at the head of the blocks. */
  lemma ProcessBlocksCons(bs: seq<Block>, io: Tools.Io, k: nat)
    requires bs != [] && bs[0].ToolUseBlock?
    requires ProcessBlocks(bs, io, k).Success?
    ensures Known(bs[0].name)
    ensures ProcessBlocks(bs[1..], io, k + 1).Success?
    ensures ProcessBlocks(bs, io, k).value
         == [ToolResultBlock(bs[0].id, Dispatch(bs[0], io, k))] + ProcessBlocks(bs[1..], io, k + 1).value
  {
  }

  /** The results of a successful pass answer its tool uses one to one. */
  lemma ProcessBlocksAnswers(bs: seq<Block>, io: Tools.Io, k: nat)
    requires ProcessBlocks(bs, io, k).Success?
    ensures |ProcessBlocks(bs, io, k).value| == |ToolUses(bs)|
    ensures Answers(ToolUses(bs), ProcessBlocks(bs, io, k).value)
  {
    ProcessBlocksResults(bs, io, k);
  }

  lemma ToolUsesOfToolUse(bs: seq<Block>)
    requires bs != [] && bs[0].ToolUseBlock?
    ensures ToolUses(bs) == [bs[0]] + ToolUses(bs[1..])
    ensures |ToolUses(bs)| == 1 + |ToolUses(bs[1..])|
    ensures forall i :: 1 <= i < |ToolUses(bs)| ==> ToolUses(bs)[i] == ToolUses(bs[1..])[i - 1]
    ensures Known(bs[0].name) ==> FirstUnknown(ToolUses(bs)) == 1 + FirstUnknown(ToolUses(bs[1..]))
    ensures !Known(bs[0].name) ==> FirstUnknown(ToolUses(bs)) == 0
  {
    var us := ToolUses(bs);
    var rest := ToolUses(bs[1..]);
    assert us == [bs[0]] + rest;
    assert us[0] == bs[0];
    assert us[1..] == rest;
  }


  // ---------------------------------------------------------------------
  // One iteration of the loop

  /** From `anthropic.messages.create` to `stopReason = response.stop_reason`. */
  function ModelTurn(s: State, w: World): (t: State)
  {
    match w.reply(s.calls)
    case ServiceError(msg) =>
      s.(phase := Aborted(msg), calls := s.calls + 1)
    case Response(content, stop) =>
      var answered := s.messages + [Message(Assistant, Blocks(content))];
      match ProcessBlocks(content, w.io, s.toolCalls)
      case Failure(e) =>
        // the handlers of the known tool uses before the unknown one have run
        s.(messages := answered, phase := Aborted(e), calls := s.calls + 1,
           toolCalls := s.toolCalls + FirstUnknown(ToolUses(content)))
      case Success(results) =>
        s.(messages := if |results| > 0 then answered + [Message(User, Blocks(results))] else answered,
           stopReason := stop,
           calls := s.calls + 1,
           toolCalls := s.toolCalls + |results|)
  }

  /** One pass through the loop body; a finished loop stays finished. */
  function Step(s: State, w: World): (t: State)
    ensures HasPrefix(s.messages, t.messages)
    ensures s.prompts <= t.prompts <= s.prompts + 1
    ensures s.calls <= t.calls <= s.calls + 1
  {
    if !s.phase.Running? then s
    else if AwaitsHuman(s) then
      var line := w.input(s.prompts);
      if EndsSession(line) then s.(phase := Exited, prompts := s.prompts + 1)
      else ModelTurn(s.(messages := s.messages + [Message(User, PlainText(line.value))],
                        prompts := s.prompts + 1), w)
    else ModelTurn(s, w)
  }

  /** `n` passes through the loop. */
  function Run(s: State, w: World, n: nat): (t: State)
    decreases n
  {
    if n == 0 then s else Run(Step(s, w), w, n - 1)
  }

  // ---------------------------------------------------------------------
  // Properties of one step

  /** The human is prompted exactly when the previous stop reason is not
      `tool_use`; on the first pass there is none, so the human comes first. */
  lemma PromptedIffNotToolUse(s: State, w: World)
    requires s.phase == Running
    ensures Step(s, w).prompts == s.prompts + 1 <==> s.stopReason != Some(ToolUse)
    ensures Step(s, w).prompts == s.prompts <==> s.stopReason == Some(ToolUse)
  {
  }

  lemma FirstPassPromptsHuman(w: World)
    ensures Step(Init(), w).prompts == 1
    ensures Step(Init(), w).calls == 1 ==>
      Step(Init(), w).messages[0] == Message(User, PlainText(w.input(0).value))
  {
  }

  /** An empty line, a closed input or "exit" ends the loop: nothing is
      appended and the model is not called. */
  lemma ExitAppendsNothing(s: State, w: World)
    requires s.phase == Running && AwaitsHuman(s)
    requires EndsSession(w.input(s.prompts))
    ensures Step(s, w).messages == s.messages
    ensures Step(s, w).phase == Exited
    ensures Step(s, w).calls == s.calls
  {
  }

  /** Any other line is appended verbatim as a user message, and the model
      is called next. */
  lemma HumanLineAppended(s: State, w: World)
    requires s.phase == Running && AwaitsHuman(s)
    requires !EndsSession(w.input(s.prompts))
    ensures |Step(s, w).messages| > |s.messages|
    ensures Step(s, w).messages[|s.messages|] == Message(User, PlainText(w.input(s.prompts).value))
    ensures Step(s, w).calls == s.calls + 1
  {
  }

  /** After a `tool_use` stop the model is called again at once: the next
      message is the model's, not the human's. */
  lemma NoHumanTurnAfterToolUse(s: State, w: World)
    requires s.phase == Running && s.stopReason == Some(ToolUse)
    requires w.reply(s.calls).Response?
    ensures Step(s, w).prompts == s.prompts
    ensures |Step(s, w).messages| > |s.messages|
    ensures Step(s, w).messages[|s.messages|] == Message(Assistant, Blocks(w.reply(s.calls).content))
  {
  }

  /** What a model call appends: the response unchanged as one assistant
      message, then — only if there are any — its tool results as one user
      message answering the tool uses one to one and in order. */
  lemma ModelTurnAppends(s: State, w: World)
    requires w.reply(s.calls).Response?
    requires forall j :: 0 <= j < |ToolUses(w.reply(s.calls).content)| ==>
      Known(ToolUses(w.reply(s.calls).content)[j].name)
    ensures var c := w.reply(s.calls).content;
      var t := ModelTurn(s, w);
      && t.phase == s.phase
      && t.stopReason == w.reply(s.calls).stopReason
      && (ToolUses(c) == [] ==> t.messages == s.messages + [Message(Assistant, Blocks(c))])
      && (ToolUses(c) != [] ==>
           && |t.messages| == |s.messages| + 2
           && t.messages[..|s.messages| + 1] == s.messages + [Message(Assistant, Blocks(c))]
           && AnsweredBy(t.messages[|s.messages|], t.messages[|s.messages| + 1]))
  {
    var c := w.reply(s.calls).content;
    var r := ProcessBlocks(c, w.io, s.toolCalls);
    ProcessBlocksFails(c, w.io, s.toolCalls);
    assert r.Success?;
    ProcessBlocksAnswers(c, w.io, s.toolCalls);
    if ToolUses(c) != [] {
      assert |r.value| > 0;
      var t := ModelTurn(s, w);
      assert t.messages == s.messages + [Message(Assistant, Blocks(c))] + [Message(User, Blocks(r.value))];
      assert t.messages[..|s.messages| + 1] == s.messages + [Message(Assistant, Blocks(c))];
    }
  }

  /** Tool results are appended whatever the stop reason; when it is not
      `tool_use` they stay pending and the human is prompted next. */
  lemma ResultsAppendedWhateverStop(s: State, w: World)
    requires s.phase == Running && s.stopReason == Some(ToolUse)
    requires w.reply(s.calls).Response?
    requires w.reply(s.calls).stopReason == Some(EndTurn)
    requires ToolUses(w.reply(s.calls).content) != []
    requires forall j :: 0 <= j < |ToolUses(w.reply(s.calls).content)| ==>
      Known(ToolUses(w.reply(s.calls).content)[j].name)
    ensures var t := Step(s, w);
      && t.phase == Running
      && |t.messages| == |s.messages| + 2
      && IsToolResults(t.messages[|t.messages| - 1])
      && AwaitsHuman(t)
  {
    ModelTurnAppends(s, w);
  }

  /** A `tool_use` block naming no registered tool throws out of the loop:
      the handlers of the tool uses before it have run, the assistant message
      stays, and no tool result of that turn is appended. */
  lemma UnknownToolAborts(s: State, w: World)
    requires w.reply(s.calls).Response?
    requires exists j :: (0 <= j < |ToolUses(w.reply(s.calls).content)|
      && !Known(ToolUses(w.reply(s.calls).content)[j].name))
    ensures var c := w.reply(s.calls).content;
      var t := ModelTurn(s, w);
      var j := FirstUnknown(ToolUses(c));
      && t.phase.Aborted?
      && t.messages == s.messages + [Message(Assistant, Blocks(c))]
      && j < |ToolUses(c)|
      && t.phase.error == "Unknown tool: " + ToolUses(c)[j].name
      && t.toolCalls == s.toolCalls + j
  {
    ProcessBlocksFails(w.reply(s.calls).content, w.io, s.toolCalls);
  }

  /** A failed request to the chat service also escapes the loop, leaving the
      transcript as it was after the human's line. */
  lemma ServiceErrorAborts(s: State, w: World)
    requires w.reply(s.calls).ServiceError?
    ensures ModelTurn(s, w).phase == Aborted(w.reply(s.calls).message)
    ensures ModelTurn(s, w).messages == s.messages
  {
  }

  // ---------------------------------------------------------------------
  // Transcript invariant

  /** The transcript opens with the human's line. */
  predicate HumanFirst(ms: seq<Message>)
  {
    |ms| > 0 ==> ms[0].role == User && ms[0].content.PlainText?
  }

  /** Every tool-result message directly follows the assistant message whose
      tool uses it answers. */
  predicate ResultsPaired(ms: seq<Message>)
  {
    forall i :: 0 <= i < |ms| && IsToolResults(ms[i]) ==> 0 < i && AnsweredBy(ms[i - 1], ms[i])
  }

  /** Every assistant message that uses tools is directly followed by their
      results. */
  predicate RequestsAnswered(ms: seq<Message>)
  {
    forall i :: 0 <= i < |ms| && Requests(ms[i]) != [] ==> i + 1 < |ms| && AnsweredBy(ms[i], ms[i + 1])
  }

  predicate WellFormed(s: State)
  {
    && HumanFirst(s.messages)
    && ResultsPaired(s.messages)
    && (!s.phase.Aborted? ==> RequestsAnswered(s.messages))
    && (s.stopReason.Some? ==> s.calls > 0)
    && (s.calls > 0 ==> s.prompts > 0 && s.messages != [])
  }

  lemma AppendHumanLine(ms: seq<Message>, line: string)
    requires ResultsPaired(ms) && RequestsAnswered(ms)
    ensures ResultsPaired(ms + [Message(User, PlainText(line))])
    ensures RequestsAnswered(ms + [Message(User, PlainText(line))])
  {
    var ms' := ms + [Message(User, PlainText(line))];
    assert forall i :: 0 <= i < |ms| ==> ms'[i] == ms[i];
  }

  lemma AppendAssistant(ms: seq<Message>, a: Message)
    requires a.role == Assistant
    requires ResultsPaired(ms)
    ensures ResultsPaired(ms + [a])
    ensures RequestsAnswered(ms) && Requests(a) == [] ==> RequestsAnswered(ms + [a])
  {
    var ma := ms + [a];
    assert forall i :: 0 <= i < |ms| ==> ma[i] == ms[i];
  }

  lemma AppendAnswer(ms: seq<Message>, a: Message, u: Message)
    requires ResultsPaired(ms + [a]) && RequestsAnswered(ms)
    requires AnsweredBy(a, u)
    ensures ResultsPaired(ms + [a] + [u])
    ensures RequestsAnswered(ms + [a] + [u])
  {
    var ma := ms + [a];
    var mu := ma + [u];
    assert forall i :: 0 <= i < |ma| ==> mu[i] == ma[i];
    assert forall i :: 0 <= i < |ms| ==> mu[i] == ms[i];
  }

  lemma ModelTurnKeepsShape(s: State, w: World)
    requires ResultsPaired(s.messages)
    requires RequestsAnswered(s.messages)
    ensures ResultsPaired(ModelTurn(s, w).messages)
    ensures !ModelTurn(s, w).phase.Aborted? ==> RequestsAnswered(ModelTurn(s, w).messages)
    ensures HumanFirst(s.messages) && s.messages != [] ==> HumanFirst(ModelTurn(s, w).messages)
  {
    var ms := s.messages;
    match w.reply(s.calls)
    case ServiceError(_) =>
    case Response(c, stop) =>
      var a := Message(Assistant, Blocks(c));
      AppendAssistant(ms, a);
      var r := ProcessBlocks(c, w.io, s.toolCalls);
      if r.Success? {
        ProcessBlocksAnswers(c, w.io, s.toolCalls);
        if |r.value| > 0 {
          AppendAnswer(ms, a, Message(User, Blocks(r.value)));
        } else {
          assert Requests(a) == [];
        }
      }
  }

  /** Every step keeps the transcript well formed. */
  lemma StepKeepsWellFormed(s: State, w: World)
    requires WellFormed(s)
    ensures WellFormed(Step(s, w))
  {
    if s.phase.Running? {
      if AwaitsHuman(s) {
        var line := w.input(s.prompts);
        if !EndsSession(line) {
          AppendHumanLine(s.messages, line.value);
          var s' := s.(messages := s.messages + [Message(User, PlainText(line.value))],
                       prompts := s.prompts + 1);
          ModelTurnKeepsShape(s', w);
        }
      } else {
        ModelTurnKeepsShape(s, w);
      }
    }
  }

  // ---------------------------------------------------------------------
  // Properties of runs

  lemma {:induction false} RunKeepsWellFormed(s: State, w: World, n: nat)
    requires WellFormed(s)
    ensures WellFormed(Run(s, w, n))
    decreases n
  {
    if n > 0 {
      StepKeepsWellFormed(s, w);
      RunKeepsWellFormed(Step(s, w), w, n - 1);
    }
  }

  /** From the start the transcript always opens with the human's line, every
      tool-result message answers the assistant message before it, and unless
      the loop aborted every tool use has been answered. */
  lemma InitialRunsWellFormed(w: World, n: nat)
    ensures WellFormed(Run(Init(), w, n))
  {
    RunKeepsWellFormed(Init(), w, n);
  }

  /** The transcript only grows: earlier entries are never changed or
      reordered. */
  lemma {:induction false} RunAppendOnly(s: State, w: World, n: nat)
    ensures HasPrefix(s.messages, Run(s, w, n).messages)
    decreases n
  {
    if n > 0 {
      var t := Step(s, w);
      RunAppendOnly(t, w, n - 1);
      var u := Run(t, w, n - 1);
      assert u.messages[..|t.messages|] == t.messages;
      assert u.messages[..|s.messages|] == t.messages[..|s.messages|];
    }
  }

  /** A finished loop does nothing more. */
  lemma {:induction false} FinishedStaysFinished(s: State, w: World, n: nat)
    requires !s.phase.Running?
    ensures Run(s, w, n) == s
    decreases n
  {
    if n > 0 {
      FinishedStaysFinished(Step(s, w), w, n - 1);
    }
  }

  /** "exit" as the very first line ends the session with an empty transcript
      and without a single call to the model. */
  lemma ExitFirst(w: World, n: nat)
    requires n > 0
    requires EndsSession(w.input(0))
    ensures Run(Init(), w, n).messages == []
    ensures Run(Init(), w, n).phase == Exited
    ensures Run(Init(), w, n).calls == 0
  {
    FinishedStaysFinished(Step(Init(), w), w, n - 1);
  }

  /** While every reply stops for known tools, the loop keeps calling the
      model without prompting the human. */
  lemma {:induction false} AutonomousRounds(s: State, w: World, n: nat)
    requires s.phase == Running && s.stopReason == Some(ToolUse)
    requires forall j :: s.calls <= j < s.calls + n ==>
      && w.reply(j).Response?
      && w.reply(j).stopReason == Some(ToolUse)
      && forall i :: 0 <= i < |ToolUses(w.reply(j).content)| ==> Known(ToolUses(w.reply(j).content)[i].name)
    ensures Run(s, w, n).prompts == s.prompts
    ensures Run(s, w, n).calls == s.calls + n
    ensures Run(s, w, n).phase == Running
    decreases n
  {
    if n > 0 {
      ModelTurnAppends(s, w);
      AutonomousRounds(Step(s, w), w, n - 1);
    }
  }
}

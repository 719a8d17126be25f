# nano-claude-code chat loop, modelled in Dafny

This project models the core of a minimal terminal agent. The agent exchanges turns with a
chat service and lets the model call three tools: `read_file`, `write_file` and `execute_bash`.
Two pieces of the source carry logic. Both are modelled here:

- **The chat loop** (`index.ts`, `chat` and `processToolUse`) is a pure state machine,
  `Agent.Step`, over a `State`. The state holds:
  - the transcript;
  - the last stop reason;
  - a phase: `Running`, `Exited`, or `Aborted` when an error escapes `chat()`;
  - three counters: lines read from the human, requests sent to the chat service, and
    handlers run.

  A `World` supplies three oracles, which the counters index:
  - the human's lines (`None` when stdin is closed and `prompt` returns `null`);
  - the chat service's replies (a response, or a rejected request);
  - the handlers' I/O.

  `Agent.Run` performs `n` passes through the `while (true)` body.
- **The tools** (`tools.ts`) are modelled as follows:
  - the registry and the advertised schema list, as constants;
  - each handler's result string, as a pure function of an abstract I/O `Outcome`
    (`Ok(value)` or `Fail(thrown value)`).

  Every handler is paired with a decoder. Round-trip lemmas show what the model can recover
  from the string it is handed.

Modules: `Common` (option, result, prefix), `Tools` (`tools.ts`), `Messages` (transcript
datatypes), `Agent` (`index.ts`).

## Model

| member | source | states |
|---|---|---|
| Tools.ReadFileRoundTrip | tools.ts:4-13 | `read_file` never raises. On success it returns the file text. On failure it returns `Error reading file: ` followed by the error's message, or the thrown value's string form when it is not an `Error`. The outcome can be read back from the string unless the file's text itself starts with that prefix. |
| Tools.ReadFileAmbiguous | tools.ts:5-12 | A file whose text is `Error reading file: ENOENT` yields the same string as a failed read with message `ENOENT`. |
| Tools.WriteFileRoundTrip | tools.ts:15-28 | `write_file` never raises. It returns the fixed text `File written successfully` on success, or `Error writing file: ` plus the message on failure. No failure string equals the success text, so the outcome can always be recovered. |
| Tools.ExecuteBashRoundTrip | tools.ts:30-53 | `execute_bash` never raises. A spawn or read failure becomes `Error executing command: ` plus the message, and can always be read back. With empty stderr, stdout is returned unchanged; it reads back as itself whenever it starts with neither `Error executing command: ` nor `STDERR:\n` (a sufficient condition, not an exact one). With non-empty stderr, both streams are kept, and they read back exactly whenever no occurrence of the `\nSTDOUT:\n` header starts inside stderr: the header does not occur in stderr and does not straddle its end (the only straddling case is stderr ending in `\nSTDOUT:`). |
| Tools.LabelledOutputSplits | tools.ts:44-45 | The result `STDERR:\n` + stderr + `\nSTDOUT:\n` + stdout splits back into exactly that stderr and that stdout. |
| Tools.FindHeader | tools.ts:44-45 | Finds the first occurrence of the stdout header at or after a position, or proves there is none. This is the search the decoder of the labelled layout relies on. |
| Tools.ExecuteBashAmbiguous | tools.ts:44-47 | A command whose stdout is itself a labelled report gives the same result as one that wrote `warn` to stderr and `out` to stdout. |
| Tools.HandleReadsOnlyParameters | tools.ts:4-53 | Each handler's result depends only on the argument fields it declares (`path`; `path` and `content`; `command`). |
| Tools.RegistryMatchesSchemas | tools.ts:57-104 | The registry's key set equals the set of advertised tool names. That set is `{read_file, write_file, execute_bash}`. |
| Tools.SchemaNamesDistinct | tools.ts:63-104 | No two advertised tools share a name. |
| Tools.SchemasDeclareParameters | tools.ts:63-104 | Every advertised tool is in the registry. Its `required` list is exactly the parameters its handler reads, each declared as a string property. |
| Tools.LookupFindsExactlyAdvertisedTools | index.ts:18-19 | With own-key lookup, a tool name resolves to a handler exactly when it is advertised. The handler it resolves to reads the parameters that tool's schema requires. |
| Tools.InheritedKeyPassesGuard | index.ts:18-19 | `toString` is not an advertised tool, yet the source's lookup `toolRegistry[name]` finds an inherited binding for it, so the `!handler` guard does not reject it. |
| Tools.LookupAsWrittenAgreesOffPrototype | index.ts:18-19 | For names that are not `Object.prototype` keys, the source's lookup and own-key lookup agree, and they resolve own keys to the same handler. |
| Agent.ExitInAnyCase | index.ts:37 | A line lower-cases to `exit` exactly when it is four letters spelling e-x-i-t in any mix of cases. |
| Messages.ToolUsesAppend | index.ts:59-68 | The `tool_use` blocks of two concatenated block lists are those of the first list followed by those of the second. |
| Messages.ToolUsesComplete | index.ts:59-68 | Every `tool_use` block of a response is among the blocks the loop dispatches; none is dropped. |
| Agent.ProcessBlocksFails | index.ts:15-19 | Processing a response's blocks succeeds exactly when every `tool_use` block names a registered tool. Otherwise the error is `Unknown tool: ` plus the name of the first unknown tool. |
| Agent.ProcessBlocksResults | index.ts:20-25 | After a successful pass there is one result per `tool_use` block, in block order. Result `j` is a `tool_result` that carries block `j`'s id and the output of block `j`'s handler, run as the session's `k + j`-th tool call. |
| Agent.ProcessBlocksAnswers | index.ts:59-68 | The result list has exactly as many entries as the response has `tool_use` blocks, and entry `j`'s `tool_use_id` equals block `j`'s id. |
| Agent.Step | index.ts:32-87 | One pass leaves every earlier transcript entry in place. It prompts the human at most once and calls the model at most once. |
| Agent.PromptedIffNotToolUse | index.ts:33-43 | In a running loop, the human is prompted exactly when the previous stop reason is not `tool_use`. |
| Agent.FirstPassPromptsHuman | index.ts:29-35 | The first pass, where the stop reason is `null`, prompts the human. If the model is then called, the transcript opens with the human's line. |
| Agent.ExitAppendsNothing | index.ts:37-40 | An empty line, a closed input, or `exit` in any case ends the loop. Nothing is appended and the model is not called. |
| Agent.HumanLineAppended | index.ts:42-57 | Any other line is appended verbatim as a user message, and the model is called next. |
| Agent.NoHumanTurnAfterToolUse | index.ts:34-57 | After a `tool_use` stop, the human is not prompted. The next message appended is the model's response. |
| Agent.ModelTurnAppends | index.ts:57-86 | A response is appended unchanged as one assistant message. A user message of tool results follows only if the response has `tool_use` blocks, and it answers them one to one, in order. The stop reason is recorded. |
| Agent.ResultsAppendedWhateverStop | index.ts:82-86 | Tool results are appended even when the stop reason is `end_turn`. The loop then prompts the human with those results still unanswered by the model. |
| Agent.UnknownToolAborts | index.ts:18-19 | A `tool_use` block naming an unregistered tool aborts the loop with `Unknown tool: <name>`. The assistant message stays, and no tool result of that turn is appended. The handlers of the known tool uses before the unknown one have already run, so the tool-call count advances by their number. |
| Agent.ServiceErrorAborts | index.ts:49-55 | A rejected chat request aborts the loop and leaves the transcript unchanged. |
| Agent.StepKeepsWellFormed | index.ts:32-87 | Every pass preserves four facts: the transcript opens with a human line; each tool-result message directly follows the assistant message it answers; unless aborted, every tool-using assistant message is answered; and no model call happens before a prompt. |
| Agent.RunKeepsWellFormed | index.ts:32-87 | Any number of passes preserves that invariant. |
| Agent.InitialRunsWellFormed | index.ts:29-87 | Every run from the initial state satisfies the invariant. |
| Agent.RunAppendOnly | index.ts:42-83 | Across any number of passes the transcript only grows. Earlier entries are never changed or reordered. |
| Agent.FinishedStaysFinished | index.ts:37-40 | A loop that has exited or aborted does nothing more. |
| Agent.ExitFirst | index.ts:29-40 | If the first line ends the session, the transcript stays empty and the model is never called. |
| Agent.AutonomousRounds | index.ts:34-86 | While each reply stops with `tool_use` and names only registered tools, the loop calls the model once per pass and never prompts the human. |

## Left out

- Reading `prompt.md` as the system prompt on every pass (index.ts:45-47) is file I/O. It never throws: a missing file yields an `Error reading file: ...` string, which is sent as the system prompt. It does not affect the loop's control flow.
- The chat request's parameters (model name, token limit, tool list, system prompt) are left out. The reply is an oracle. A rejected request is a `ServiceError` reply.
- `Bun.file`, `Bun.write`, `Bun.spawn` and `resolve` are left out. Each handler meets an abstract `Outcome` chosen by the `Io` oracle. The oracle sees the call number and the argument fields, so a changing file system is covered.
- The concurrent draining of stdout and stderr (`Promise.all`) and all async scheduling are left out. The model is sequential.
- The process exit status is left out, because `execute_bash` never reads it.
- Console output, colours, separator lines and JSON printing of tool arguments are left out.
- Tool arguments are modelled as a map from field names to strings. Non-string values are not modelled.
- Agent.ExitInAnyCase: `toLowerCase` is modelled on ASCII letters only. For the comparison with `exit` this gives the same verdict: no non-ASCII character lower-cases to `e`, `x`, `i` or `t`.
- What happens when an inherited `Object.prototype` member is called as a tool is not modelled (see Findings). The loop dispatches through the corrected own-key `Tools.Lookup`.
- `Agent.Run` performs a given number of passes. The source's `while (true)` is unbounded; the lemmas hold for every count.
- The model follows the code, not a cleaner design of the same loop, in these places:
  - an unknown tool throws and aborts `chat()`, rather than producing an `Unknown tool` result;
  - a chat-service failure also aborts `chat()`, rather than returning to the prompt;
  - tool results are sent as a `user` message;
  - there is no `list` tool, no argument parsing step and no session recorder.

## Findings

| source | as written | input that shows it | evidently intended | confidence | as-written member | corrected member |
|---|---|---|---|---|---|---|
| index.ts:18-19 | `toolRegistry[toolUse.name]` reads a plain object. Keys inherited from `Object.prototype` are truthy, so they pass the `!handler` guard. | a `tool_use` block named `toString` (or `constructor`, `valueOf`, `__proto__`, ...) | every name that is not a registered tool is rejected with `Unknown tool: <name>` | medium, not executed | Tools.InheritedKeyPassesGuard | Tools.LookupFindsExactlyAdvertisedTools |

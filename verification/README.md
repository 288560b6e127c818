# BlackCortex GPT CLI — conversation memory, request assembly and command-line glue in Dafny

This project models the deterministic core of the BlackCortex GPT command-line chat assistant. The
model covers:

- **Conversation memory** (`ContextMemory`). The state is a rolling summary plus a buffer of recent
  `{role, content}` messages. Load, save, reset and summarize are pure transitions over that pair.
  The memory file is an input that is absent, corrupt, or a record whose keys may be missing.
- **One chat turn**, in all three front ends: `ChatManager` (`blackcortex_cli/core/chat.py`), the
  module-level `State` front end (`blackcortex_cli/chat.py`) and the original `gpt.py`. Each turn
  appends the prompt and builds the request payload (`Payload.Build`). On an answer it appends the
  reply and summarizes once the buffer holds `2 * memory_limit` messages. The chat service is an
  input: a completion or an error for blocking requests, a chunk list or an error for streaming
  ones, and a completion or an error for the summarizer.
- **The `.env` rewrite** of `command_set_key` (`EnvFile`). This covers the line-level loop and the
  file-level round trip through `readlines`.
- **The header spacer arithmetic** of `render_header` (`Header`).
- **Early-exit dispatch and the order of checks in `main`**, for both entry points (`Cli` for
  `blackcortex_cli/main.py`, `Gpt` for `gpt.py`).

Python semantics are written out where they matter:
- `xs[-k:]` is `PyText.Last`. It returns the whole list when `k == 0`, so a zero `memory_limit` is
  modelled, not excluded.
- `str.strip()` uses the full `isspace` character set.
- String truthiness is tested as non-emptiness.
- `readlines` keeps each line's newline.

Notes on the code:
- `ChatManager` writes the memory file only through `ContextMemory.summarize`: an ordinary turn is
  not persisted (`ChatManager.NoWriteBelowThreshold`). `blackcortex_cli/chat.py` and `gpt.py` save
  after every answered turn (`ChatModule.Respond`).
- A successful summarization clears the whole buffer. This includes messages older than the batch
  it sent (`ContextMemory.SummarizeDropsUnbatched`).
- The two early-exit dispatchers differ:
  - In `gpt.py` a bare `--set-key` fires.
  - In `gpt.py` only `--reset` stops `main`.
  - `gpt.py` has no `--version`.

## Model

| member | source | states |
|---|---|---|
| ContextMemory.Fresh | blackcortex_cli/memory/context_memory.py:24-27 | a new memory has an empty summary and an empty message list |
| ContextMemory.Load | blackcortex_cli/memory/context_memory.py:29-42 | a missing file leaves the state unchanged; a corrupt file resets it to ("", []); a record sets summary and buffer, defaulting missing keys to "" and []; the returned pair is the post-load state |
| ContextMemory.Save | blackcortex_cli/memory/context_memory.py:44-51 | the written record always carries both the "summary" and the "recent" key |
| ContextMemory.LoadSave | blackcortex_cli/memory/context_memory.py:36-51 | round trip: loading what save wrote restores exactly the saved summary and list, whatever the prior state |
| ContextMemory.LoadForgetsPriorState | blackcortex_cli/memory/context_memory.py:33-42 | unless the file is missing, the state after load does not depend on the state before |
| ContextMemory.Reset | blackcortex_cli/memory/context_memory.py:54-71 | reset yields ("", []) and no file, whether or not the file existed; on PermissionError the state and the file are unchanged |
| ContextMemory.Summarize | blackcortex_cli/memory/context_memory.py:73-115 | an empty buffer makes no request, keeps the summary and is saved; otherwise the prompt is the summary followed by the batch's `Role: content` lines; success sets the summary to the stripped reply, clears the whole buffer and saves; failure changes nothing and saves nothing |
| ContextMemory.BatchIsNewestMessages | blackcortex_cli/memory/context_memory.py:89 | with a positive limit the batch is the last min(2·limit, n) messages, in original order |
| ContextMemory.SummarizeDropsUnbatched | blackcortex_cli/memory/context_memory.py:89-110 | when the buffer is longer than 2·limit, a successful summary sends only the newest 2·limit messages yet empties the buffer |
| ContextMemory.SummarizeShrinksOrKeeps | blackcortex_cli/memory/context_memory.py:85-115 | summarize either leaves the state as it was or empties the buffer and saves |
| PyText.Strip | blackcortex_cli/core/chat.py:63 | `str.strip()`: the result is a contiguous slice of the input, only whitespace is removed on either side, and the result neither starts nor ends with whitespace |
| PyText.StripIdempotent | blackcortex_cli/memory/context_memory.py:109 | stripping a stripped reply changes nothing |
| PyText.Last | blackcortex_cli/core/chat.py:109 | `xs[-k:]` is a suffix of xs of length min(k, n) for k ≥ 1, all of xs for k = 0, and max(n + k, 0) elements for k < 0 |
| PyText.LastKeepsOrder | blackcortex_cli/memory/context_memory.py:89 | for k ≥ 1, `xs[-k:]` lists the last min(k, n) elements in their original order |
| PyText.ConcatReadLines | core/commands.py:62-74 | writing back the lines `readlines` returned reproduces the file text |
| PyText.ReadLinesConcat | core/commands.py:62-74 | newline-terminated lines written out read back as the same lines |
| PyText.ReadLinesTerminated | core/commands.py:62-64 | a text that is empty or ends in a newline reads as newline-terminated lines only |
| Api.CollectStream | blackcortex_cli/core/chat.py:85-92 | the streaming loop, which skips missing deltas, null and empty content, yields the in-order concatenation of all chunk texts |
| Api.SilentStreamIsEmpty | blackcortex_cli/core/chat.py:85-92 | a stream whose chunks carry no text yields the empty reply |
| Api.StreamTextSplit | blackcortex_cli/chat.py:95-102 | the reply to a stream split anywhere is the reply to the first part followed by the reply to the rest, so each chunk contributes its own text in arrival order |
| Exchange.FromCompletion | blackcortex_cli/core/chat.py:53-63 | a blocking request answers iff it completed, with the stripped content; an error yields its message |
| Exchange.FromStream | blackcortex_cli/core/chat.py:74-92 | a streaming request answers iff it opened, with the unstripped concatenation of the chunk texts |
| Payload.Build | blackcortex_cli/core/chat.py:96-110 | the payload is INTRO first, then `INSTRUCTIONS: ` plus the default prompt when it is non-empty, then `SUMMARY: ` plus the summary when it is non-empty, all as system messages, then exactly `recent[-limit:]`; its length is the header count plus that slice's length |
| Payload.ParseBuild | blackcortex_cli/chat.py:107-120 | round trip: over a user/assistant buffer, the payload reads back as INTRO, then INSTRUCTIONS iff the default prompt is non-empty, then SUMMARY iff the summary is non-empty, then `recent[-limit:]` |
| Payload.LastEntryIsNewest | gpt.py:81-90 | with limit ≥ 1 the message appended last is the payload's last entry |
| MemoryPackage.SummarizeRecent | tests/test_memory.py:73-140 | `summarize_recent` returns (summary, []) for an empty buffer, the inputs unchanged on failure, and (stripped reply, []) on success |
| MemoryPackage.AgreesWithContextMemory | tests/test_memory.py:73-140 | `summarize_recent` and `ContextMemory.summarize` make the same state transition for every limit |
| ChatManager.Create | blackcortex_cli/core/chat.py:24-29 | a new manager holds the loaded memory: empty for a missing or corrupt file, the record's fields otherwise |
| ChatManager.CheckMemoryLimit | blackcortex_cli/core/chat.py:112-122 | summarize runs iff the buffer holds at least 2·limit messages; otherwise nothing changes and nothing is written |
| ChatManager.Respond | blackcortex_cli/core/chat.py:47-94 | the payload is built from the pre-turn summary after the prompt is appended; on an API error the error string is returned, the user message stays, and no reply, summarization or write happens; on an answer the reply is returned and the buffer gains the prompt and the reply; once it holds 2·limit messages a successful summary replaces the summary by the stripped answer and empties the buffer, while a failed one keeps the grown buffer; the file is written only by a successful summarization |
| ChatManager.Blocking | blackcortex_cli/core/chat.py:47-66 | an API error returns its message with only the prompt appended and writes nothing; a completion appends the prompt and the stripped content, then applies the limit check |
| ChatManager.Streaming | blackcortex_cli/core/chat.py:68-94 | an error at the request returns its message with only the prompt appended; a stream appends the prompt and the unstripped concatenation of the chunk texts, then applies the limit check |
| ChatManager.BlockingSuccessAppendsExchange | blackcortex_cli/core/chat.py:51-64 | below the threshold a blocking success grows the buffer by exactly the user message followed by the stripped reply |
| ChatManager.SummarizeTrigger | blackcortex_cli/core/chat.py:116 | summarization runs iff the request answered and the grown buffer reaches 2·limit |
| ChatManager.SuccessRestoresBound | blackcortex_cli/core/chat.py:112-122 | with limit ≥ 1, a turn whose request and summarization succeed leaves fewer than 2·limit messages, whatever the prior length |
| ChatManager.NoWriteBelowThreshold | blackcortex_cli/core/chat.py:112-122 | this front end writes no memory file on a turn below the threshold |
| ChatManager.PromptIsLastPayloadEntry | blackcortex_cli/core/chat.py:51-52 | with limit ≥ 1 the new prompt is the last payload entry |
| ChatManager.GetAnswerAsWritten | blackcortex_cli/core/chat.py:39-66 | as written: in streaming mode the streaming turn, answered as `(reply, None)` iff `return_usage` and as the bare reply otherwise; in blocking mode the blocking turn, answered as `(reply, usage)` exactly when the request completed, regardless of `return_usage` |
| ChatManager.BlockingErrorIgnoresReturnUsage | blackcortex_cli/core/chat.py:60-61 | as written, a blocking API error with `return_usage` set returns a bare string |
| ChatManager.GetAnswer | blackcortex_cli/core/chat.py:39-45 | dispatches on `stream_enabled`; the answer is a (text, usage) pair iff `return_usage`; usage is None in streaming mode or on error |
| ChatManager.GetAnswerRefinesAsWritten | blackcortex_cli/core/chat.py:39-66 | the corrected answer makes the same turn, is identical in streaming mode, and differs only where the as-written shape disagreed with `return_usage` |
| ChatModule.CheckMemoryLimit | blackcortex_cli/chat.py:123-139 | `summarize_recent` is called iff the buffer holds at least 2·limit messages, and its result replaces both fields |
| ChatModule.Respond | blackcortex_cli/chat.py:55-104 | an error returns before the reply is appended and before any save; an answer grows the buffer by the prompt and the reply, is summarized (the stripped answer and an empty buffer on success, the grown buffer on failure) once the buffer holds 2·limit messages, and the resulting memory is saved unconditionally |
| ChatModule.Blocking | blackcortex_cli/chat.py:55-73 | an error returns its message unsaved with only the prompt appended; a completion appends the prompt and the stripped content, applies the limit check and saves |
| ChatModule.Streaming | blackcortex_cli/chat.py:76-104 | the same for a stream, with the unstripped concatenation of the chunk texts as the reply |
| ChatModule.GetAnswer | blackcortex_cli/chat.py:42-52 | streaming iff `State.stream_enabled`, blocking otherwise |
| ChatModule.AgreesWithChatManager | blackcortex_cli/chat.py:55-140 | this front end and `ChatManager` produce the same memory, payload, returned text and trigger; they differ only in what is written |
| Gpt.Respond | gpt.py:78-154 | the payload is built after the prompt is appended; an error returns the error string with only the prompt appended and no save; an answer grows the buffer by the prompt and the reply, is summarized iff the buffer reaches 2·limit (the stripped answer and an empty buffer on success, the grown buffer on failure), then always saved |
| Gpt.Blocking | gpt.py:78-110 | an error returns its message unsaved with only the prompt appended; a completion appends the prompt and the stripped content, summarizes if due and saves; the turn is the one `blackcortex_cli/chat.py` makes |
| Gpt.Streaming | gpt.py:113-154 | the same for a stream, with the unstripped concatenation of the chunk texts as the reply; the turn is the one `blackcortex_cli/chat.py` makes |
| Gpt.GetAnswer | gpt.py:157-159 | streaming iff `stream_enabled`, blocking otherwise, and the same turn as `blackcortex_cli/chat.py`'s `get_answer` |
| Gpt.AgreesWithChatModule | gpt.py:78-154 | the inlined turn of `gpt.py` equals the turn of `blackcortex_cli/chat.py` |
| Gpt.HandleEarlyExits | gpt.py:220-238 | the command run is the first flagged in the order reset, env, update, uninstall, set_key, ping, log, clear_log; set_key fires on any value or a bare `--set-key` in argv; the result is True only for reset |
| Gpt.Main | gpt.py:299-315 | only `--reset` stops `main`; otherwise a missing key or failed client exits 1, else the conversation starts, streaming if configured or `--stream` |
| Gpt.CommandsOtherThanResetContinue | gpt.py:301-302 | after any dispatched command other than reset, `main` does not stop |
| Cli.FirstFlagged | blackcortex_cli/main.py:97-100 | the handler loop stops at the first handler whose flag is truthy; all earlier ones are falsy |
| Cli.HandleEarlyExits | blackcortex_cli/main.py:79-101 | exactly one handler runs when any of the nine flags is truthy, namely the first in table order, and then True is returned; False and nothing run otherwise; a bare or empty `--set-key` and `--summary` never dispatch |
| Cli.Main | blackcortex_cli/main.py:149-160 | early exits run before the API-key check and stop `main`; otherwise a missing key or failed client exits 1, else the conversation starts with `--stream`'s setting |
| Cli.AgreesWithGptWhenKeyGiven | blackcortex_cli/main.py:86-100 | outside a bare or empty `--set-key` and `--version`, both entry points choose the same command |
| Cli.BareSetKeyDiffers | blackcortex_cli/main.py:91 | a bare `--set-key` dispatches nothing here but runs the key prompt in `gpt.py` |
| EnvFile.RewriteLines | core/commands.py:67-76 | every marker line becomes exactly the key line; other lines are kept verbatim in order; the key line is appended iff no line had the marker; the output always holds the key line |
| EnvFile.WriteLines | core/commands.py:67-76 | the writing loop with its `found` flag writes exactly those lines |
| EnvFile.RewriteLinesIdempotent | core/commands.py:67-76 | rewriting the rewritten lines changes nothing |
| EnvFile.SetKeyTextAsWritten | core/commands.py:60-76 | the file text the source writes: with no marker line, the old text unchanged followed by the key line; on a text that is empty or ends in a newline, it reads back as the rewritten lines |
| EnvFile.AsWrittenIdempotentOnTerminatedText | core/commands.py:60-76 | on a file that is empty or ends in a newline, the rewrite is idempotent on the file text |
| EnvFile.AsWrittenGluesKeyToLastLine | core/commands.py:73-76 | as written, with an unterminated last line and no marker line, the key is appended directly after the last line rather than on a line of its own |
| EnvFile.ShortLineGetsKeyAppended | core/commands.py:62-76 | as written, a one-line file too short to hold the marker and with no final newline becomes that line immediately followed by the key line |
| EnvFile.AsWrittenExample | core/commands.py:73-76 | as written, a file `FOO=bar` with no final newline becomes `FOO=barOPENAI_API_KEY=sk` plus a newline |
| EnvFile.KeyOnItsOwnLine | core/commands.py:75-76 | corrected: for every file the key line is one of the file's lines afterwards |
| EnvFile.SetKeyTextIdempotent | core/commands.py:67-76 | corrected: the rewrite is idempotent on every file text |
| EnvFile.SetKeyTextMatchesAsWritten | core/commands.py:60-76 | on a file that is empty or newline-terminated the corrected rewrite equals the source's |
| EnvFile.SetKeyTextOfEmpty | core/commands.py:60-64 | a missing file becomes exactly the single key line |
| EnvFile.SetKeyCommand | core/commands.py:43-78 | a rejected key returns before any file is read or written; otherwise the key (argument or stripped prompt answer) is written as the source writes it: a missing file yields the key line alone, and a file with no key line gets the key line appended to its text as it stands |
| EnvFile.SetKeyCommandCorrected | core/commands.py:43-78 | corrected: the same validation and key, with the rewrite that puts the key on a line of its own |
| EnvFile.CommandsAgreeOnTerminatedFiles | core/commands.py:60-76 | the source's command and the corrected one write the same text whenever the file is missing, empty or ends in a newline |
| Header.RenderHeader | blackcortex_cli/utils/formatting.py:8-17 | the plain text is left, at least one space, then right; its width is exactly 98 when the labels total at most 97, otherwise their total plus one, with no truncation |
| Header.FitsIff | blackcortex_cli/utils/formatting.py:15-17 | the header fits in MAX_WIDTH = 100 iff the labels together are at most 99 characters long |

## Findings

| source | as written | input that shows it | evidently intended | confidence | as-written member | corrected member |
|---|---|---|---|---|---|---|
| blackcortex_cli/core/chat.py:39-66 | in blocking mode `get_answer` returns `_get_answer_blocking`'s result whatever `return_usage` says: a bare error string on an API error, a `(reply, tokens)` pair on success | non-streaming manager, `return_usage=True`, the request raises `OpenAIError`: a bare string is returned, and `response, usage = ...` at blackcortex_cli/repl.py:73 cannot unpack it (`ValueError` is not caught there) | the answer is a pair exactly when `return_usage` is set, with usage None on error | high (not executed) | ChatManager.BlockingErrorIgnoresReturnUsage | ChatManager.GetAnswer |
| core/commands.py:73-76 | the key line is appended right after the last line even when that line has no final newline | `.env` holding `FOO=bar` with no trailing newline: the file becomes `FOO=barOPENAI_API_KEY=sk` plus a newline, so FOO's value swallows the key and OPENAI_API_KEY is not defined | the key line always starts a line of its own | high (not executed) | EnvFile.AsWrittenGluesKeyToLastLine | EnvFile.KeyOnItsOwnLine |

`EnvFile.SetKeyCommand` writes what the source writes. `EnvFile.SetKeyCommandCorrected` uses the
corrected `EnvFile.SetKeyText`, which terminates an unterminated last line before rewriting. The
turns keep `ChatManager.GetAnswerAsWritten` for reference. The corrected `ChatManager.GetAnswer` is
the one the model treats as the manager's answer.

## Left out

- The chat-completions and model-listing calls are abstract outcomes. The model, temperature and
  max-token arguments have no effect on the model. Usage counts are carried through but not
  interpreted.
- Errors raised while iterating a stream, and non-`OpenAIError` exceptions in the blocking path,
  propagate in the source. Only an error at request time is modelled.
- File I/O is modelled through the file's content. The memory file is absent, corrupt or a record;
  the `.env` file is optional text. `os.chmod`, `os.makedirs`, JSON encoding and disk-write failures
  are left out.
- A memory file whose JSON is valid but not an object, or whose messages lack "role"/"content", is
  left out: the source raises there.
- Roles are the three the program writes. `capitalize()` is modelled only for them.
- Text-mode newline translation in `readlines` is left out: Python also ends a line at `\r\n` and at
  a lone `\r`, translating both to `\n`. The model ends lines only at `\n`.
- `ContextMemory.Reset`: other `OSError`s from `os.remove` are not modelled. Only PermissionError is
  caught in the source.
- `load_memory`, `save_memory` and `reset_memory` from the memory packages are not part of this
  model. `summarize_recent` is specified only by the tests of `blackcortex_cli.memory`
  (`MemoryPackage.SummarizeRecent`).
- Gpt.Respond, Gpt.AgreesWithChatModule: `gpt.py` imports `summarize_recent` from `core.memory`,
  which is not part of this model. Both members assume it behaves like the tested
  `blackcortex_cli.memory.summarize_recent`.
- ContextMemory.Load: a record whose "summary" or "recent" value is JSON `null` is left out. The
  source's `data.get` then yields None rather than the default, and the state holds None.
- The memory-intro prose and the INTRO text are a parameter.
- Configuration loading is left out: environment lookup, float temperature and integer parsing.
- Rendering is left out: rich, Markdown, `print_wrapped` and the styles passed to `render_header`.
  Character cell widths of wide glyphs are also not modelled; the header width is `len()`.
- The REPL loops, one-shot input reading and timestamped log writes depend on the terminal and the
  clock.
- The commands `env`, `update`, `uninstall`, `ping`, `log`, `clear_log`, `version` and `summary` run
  subprocesses, read files or print. Only their dispatch is modelled.
- `command_set_key`'s interactive prompt is an input string. Validation is an abstract outcome.
- EnvFile.KeyOnItsOwnLine, EnvFile.SetKeyTextIdempotent, EnvFile.AsWrittenIdempotentOnTerminatedText
  and the read-back clause of EnvFile.SetKeyTextAsWritten assume the key holds no newline. A key
  with a newline splits into two lines, which the source does nothing about.
- The tests under tests/core/, tests/flags/ and tests/utils/test_metadata.py are left out. They
  exercise modules this model does not cover: `blackcortex_cli.core.context`,
  `blackcortex_cli.core.context_memory`, `blackcortex_cli.core.chat_manager`,
  `blackcortex_cli.core.flag_registry`, `blackcortex_cli.core.log_manager`, the
  `blackcortex_cli.flags` handlers and `blackcortex_cli.utils.metadata`.
- tests/utils/test_formatting.py expects `render_header` to return a markup string such as
  `[bold]Left[/bold] [dim]Right[/dim]`. That contradicts blackcortex_cli/utils/formatting.py:11-17,
  which builds a padded `Text`; `Header.RenderHeader` follows formatting.py.

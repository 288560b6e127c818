/** `gpt.py`: the original single-file front end. Its answer functions inline the payload, the limit
    check and the save. Its early-exit dispatch differs from the packaged one in `Cli`. */
module Gpt {
  import opened Wrappers
  import opened Messages
  import opened PyText
  import opened Api
  import opened ContextMemory
  import opened Payload
  import opened Exchange
  import opened MemoryPackage
  import opened Flags
  import ChatModule

  /** One inlined turn: append the prompt, build the payload, and on an answer append it, summarize
      when the buffer holds at least `2 * memory_limit` messages, then always save. */
  function Respond(s: ChatModule.Settings, st: ChatModule.State, prompt: string, reply: Reply,
                   summarizer: Completion): (t: Turn)
    ensures t.payload == Build(s.intro, s.defaultPrompt, st.memory.summary,
                               st.memory.recent + [Message(User, prompt)], s.memoryLimit)
    ensures reply.Refused? ==>
              && t.memory == RefusedMemory(st.memory, prompt)
              && t.returned == ErrorText(reply.error) && t.written.None? && !t.summarized
    ensures reply.Answered? ==>
              && t.returned == reply.text
              && t.memory == AnsweredMemory(st.memory, prompt, reply.text, s.memoryLimit, summarizer)
              && (t.summarized <==> |st.memory.recent| + 2 >= 2 * s.memoryLimit)
              && t.written == Some(t.memory)
  {
    var recent := st.memory.recent + [Message(User, prompt)];
    var payload := Build(s.intro, s.defaultPrompt, st.memory.summary, recent, s.memoryLimit);
    match reply
    case Refused(e) =>
      Turn(Memory(st.memory.summary, recent), payload, ErrorText(e), false, None)
    case Answered(text) =>
      var recent := recent + [Message(Assistant, text)];
      var trigger := |recent| >= s.memoryLimit * 2;
      var after := if trigger then SummarizeRecent(st.memory.summary, recent, summarizer)
                   else Memory(st.memory.summary, recent);
      InlinedCheckIsAnswered(s, st.memory, prompt, text, summarizer);
      Turn(after, payload, text, trigger, Some(after))
  }

  /** The inlined limit check after an answer leaves the answered memory. */
  lemma InlinedCheckIsAnswered(s: ChatModule.Settings, m: Memory, prompt: string, text: string, summarizer: Completion)
    ensures var recent := m.recent + [Message(User, prompt)] + [Message(Assistant, text)];
            var after := if |recent| >= s.memoryLimit * 2 then SummarizeRecent(m.summary, recent, summarizer)
                         else Memory(m.summary, recent);
              && after == AnsweredMemory(m, prompt, text, s.memoryLimit, summarizer)
              && |recent| == |m.recent| + 2
  {
    assert m.recent + [Message(User, prompt)] + [Message(Assistant, text)]
        == m.recent + [Message(User, prompt), Message(Assistant, text)];
  }

  /** `get_answer_blocking`: an error returns its message unsaved, with only the prompt appended; a
      completion appends the prompt and the stripped content, summarizes if due and saves. */
  function Blocking(s: ChatModule.Settings, st: ChatModule.State, prompt: string, completion: Completion,
                    summarizer: Completion): (t: Turn)
    ensures completion.ApiError? ==>
              && t.returned == ErrorText(completion.message)
              && t.memory == RefusedMemory(st.memory, prompt) && t.written.None?
    ensures completion.Completed? ==>
              && t.returned == Strip(completion.content)
              && t.memory == AnsweredMemory(st.memory, prompt, Strip(completion.content), s.memoryLimit, summarizer)
              && t.written == Some(t.memory)
    ensures t == ChatModule.Blocking(s, st, prompt, completion, summarizer)
  {
    AgreesWithChatModule(s, st, prompt, FromCompletion(completion), summarizer);
    Respond(s, st, prompt, FromCompletion(completion), summarizer)
  }

  /** `get_answer_streaming`: the same, with the unstripped concatenation of the chunk texts. */
  function Streaming(s: ChatModule.Settings, st: ChatModule.State, prompt: string, stream: Stream,
                     summarizer: Completion): (t: Turn)
    ensures stream.StreamError? ==>
              && t.returned == ErrorText(stream.message)
              && t.memory == RefusedMemory(st.memory, prompt) && t.written.None?
    ensures stream.Streamed? ==>
              && t.returned == StreamText(stream.chunks)
              && t.memory == AnsweredMemory(st.memory, prompt, StreamText(stream.chunks), s.memoryLimit, summarizer)
              && t.written == Some(t.memory)
    ensures t == ChatModule.Streaming(s, st, prompt, stream, summarizer)
  {
    AgreesWithChatModule(s, st, prompt, FromStream(stream), summarizer);
    Respond(s, st, prompt, FromStream(stream), summarizer)
  }

  /** `get_answer`: streaming exactly when `stream_enabled`. */
  function GetAnswer(s: ChatModule.Settings, st: ChatModule.State, prompt: string, completion: Completion,
                     stream: Stream, summarizer: Completion): (t: Turn)
    ensures st.streamEnabled ==> t == Streaming(s, st, prompt, stream, summarizer)
    ensures !st.streamEnabled ==> t == Blocking(s, st, prompt, completion, summarizer)
    ensures t == ChatModule.GetAnswer(s, st, prompt, completion, stream, summarizer)
  {
    if st.streamEnabled then Streaming(s, st, prompt, stream, summarizer)
    else Blocking(s, st, prompt, completion, summarizer)
  }

  /** The inlined turn is exactly the turn of `blackcortex_cli/chat.py`, provided the two
      `summarize_recent` functions they import behave alike (see `MemoryPackage`). */
  lemma AgreesWithChatModule(s: ChatModule.Settings, st: ChatModule.State, prompt: string, reply: Reply,
                             summarizer: Completion)
    ensures Respond(s, st, prompt, reply, summarizer) == ChatModule.Respond(s, st, prompt, reply, summarizer)
  {
  }

  // ---------------------------------------------------------------------------
  // handle_early_exits and main
  // ---------------------------------------------------------------------------

  /** Whether `gpt.py` dispatches a command: `--set-key` fires when it has a value (even an empty
      one) or when the bare flag is on the command line; `gpt.py` has no `--version`. */
  predicate Flagged(a: Args, argv: seq<string>, c: Command) {
    match c
    case Reset => a.reset
    case Env => a.env
    case Update => a.update
    case Uninstall => a.uninstall
    case SetKey => a.setKey.Some? || "--set-key" in argv
    case Ping => a.ping
    case Log => a.log
    case ClearLog => a.clearLog
    case Version => false
  }

  /** `handle_early_exits`: the command it runs and what it returns. Only `--reset` returns True;
      every other command returns its own result, which is None for those commands. */
  function HandleEarlyExits(a: Args, argv: seq<string>): (r: (Option<Command>, bool))
    ensures r.0.None? ==> forall c :: !Flagged(a, argv, c)
    ensures r.0.Some? ==> Flagged(a, argv, r.0.value)
    ensures r.0.Some? ==> forall c :: Rank(c) < Rank(r.0.value) ==> !Flagged(a, argv, c)
    ensures r.1 <==> r.0 == Some(Reset)
  {
    if a.reset then (Some(Reset), true)
    else if a.env then (Some(Env), false)
    else if a.update then (Some(Update), false)
    else if a.uninstall then (Some(Uninstall), false)
    else if a.setKey.Some? || "--set-key" in argv then (Some(SetKey), false)
    else if a.ping then (Some(Ping), false)
    else if a.log then (Some(Log), false)
    else if a.clearLog then (Some(ClearLog), false)
    else (None, false)
  }

  /** `main` after parsing: early exits first; only a True result stops; then the key check, then
      the client, then the conversation (streaming when configured or `--stream` is given). */
  function Main(a: Args, argv: seq<string>, configStream: bool, apiKey: Option<string>, clientOk: bool)
    : (r: (Option<Command>, After))
    ensures r.0 == HandleEarlyExits(a, argv).0
    ensures r.1 == Stop <==> a.reset
    ensures !a.reset && !Truthy(apiKey) ==> r.1 == Exit(1)
    ensures !a.reset && Truthy(apiKey) ==> r.1 == (if clientOk then Converse(configStream || a.stream) else Exit(1))
  {
    var (ran, stop) := HandleEarlyExits(a, argv);
    if stop then (ran, Stop)
    else if !Truthy(apiKey) then (ran, Exit(1))
    else if !clientOk then (ran, Exit(1))
    else (ran, Converse(configStream || a.stream))
  }

  /** A command other than `--reset` does not end the run: `main` goes on to the key check and the
      conversation. */
  lemma CommandsOtherThanResetContinue(a: Args, argv: seq<string>, configStream: bool,
                                       apiKey: Option<string>, clientOk: bool)
    requires HandleEarlyExits(a, argv).0.Some? && !a.reset
    ensures Main(a, argv, configStream, apiKey, clientOk).1 != Stop
  {
  }
}

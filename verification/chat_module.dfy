/** `blackcortex_cli/chat.py`: the module-level front end over a shared `State`. Like `ChatManager`
    it appends the prompt, builds the payload and appends the answer, but it summarizes through
    `summarize_recent` and saves the memory after every answered turn. */
module ChatModule {
  import opened Wrappers
  import opened Messages
  import opened PyText
  import opened Api
  import opened ContextMemory
  import opened Payload
  import opened Exchange
  import opened MemoryPackage
  import ChatManager

  /** The configuration values the module imports; `intro` is `MEMORY_INTRO`. */
  datatype Settings = Settings(intro: string, defaultPrompt: string, memoryLimit: int)

  /** `State`: the streaming switch and the (summary, recent) pair. */
  datatype State = State(streamEnabled: bool, memory: Memory)

  /** `check_memory_limit` without its final save: when the buffer holds at least
      `2 * memory_limit` messages, both fields are replaced by what `summarize_recent` returns. */
  function CheckMemoryLimit(s: Settings, m: Memory, summarizer: Completion): (r: (Memory, bool))
    ensures r.1 <==> |m.recent| >= 2 * s.memoryLimit
    ensures !r.1 ==> r.0 == m
    ensures r.1 ==> r.0 == SummarizeRecent(m.summary, m.recent, summarizer)
  {
    if |m.recent| >= s.memoryLimit * 2 then (SummarizeRecent(m.summary, m.recent, summarizer), true)
    else (m, false)
  }

  /** One turn given what the request produced. An error returns before the answer is appended and
      before anything is saved; an answer is appended, the limit is checked, and the resulting
      memory is saved unconditionally. */
  function Respond(s: Settings, st: State, prompt: string, reply: Reply, summarizer: Completion): (t: Turn)
    ensures var m := st.memory;
              t.payload == Build(s.intro, s.defaultPrompt, m.summary, m.recent + [Message(User, prompt)], s.memoryLimit)
    ensures reply.Refused? ==>
              && t.memory == RefusedMemory(st.memory, prompt)
              && t.returned == ErrorText(reply.error)
              && !t.summarized && t.written.None?
    ensures reply.Answered? ==>
              && t.returned == reply.text
              && t.memory == AnsweredMemory(st.memory, prompt, reply.text, s.memoryLimit, summarizer)
              && (t.summarized <==> |st.memory.recent| + 2 >= 2 * s.memoryLimit)
              && t.written == Some(t.memory)
  {
    var m := st.memory;
    var grown := m.recent + [Message(User, prompt)];
    var payload := Build(s.intro, s.defaultPrompt, m.summary, grown, s.memoryLimit);
    match reply
    case Refused(e) =>
      Turn(Memory(m.summary, grown), payload, ErrorText(e), false, None)
    case Answered(text) =>
      var c := CheckMemoryLimit(s, Memory(m.summary, grown + [Message(Assistant, text)]), summarizer);
      CheckIsAnswered(s, m, prompt, text, summarizer);
      Turn(c.0, payload, text, c.1, Some(c.0))
  }

  /** The limit check after an answer leaves the answered memory. */
  lemma CheckIsAnswered(s: Settings, m: Memory, prompt: string, text: string, summarizer: Completion)
    ensures var c := CheckMemoryLimit(s, Memory(m.summary, m.recent + [Message(User, prompt)] + [Message(Assistant, text)]), summarizer);
              && c.0 == AnsweredMemory(m, prompt, text, s.memoryLimit, summarizer)
              && (c.1 <==> |m.recent| + 2 >= 2 * s.memoryLimit)
  {
    assert m.recent + [Message(User, prompt)] + [Message(Assistant, text)]
        == m.recent + [Message(User, prompt), Message(Assistant, text)];
  }

  /** `get_answer_blocking`: an error returns its message unsaved, with only the prompt appended; a
      completion appends the prompt and the stripped content, checks the limit and saves. */
  function Blocking(s: Settings, st: State, prompt: string, completion: Completion, summarizer: Completion): (t: Turn)
    ensures completion.ApiError? ==>
              && t.returned == ErrorText(completion.message)
              && t.memory == RefusedMemory(st.memory, prompt) && t.written.None?
    ensures completion.Completed? ==>
              && t.returned == Strip(completion.content)
              && t.memory == AnsweredMemory(st.memory, prompt, Strip(completion.content), s.memoryLimit, summarizer)
              && t.written == Some(t.memory)
  {
    Respond(s, st, prompt, FromCompletion(completion), summarizer)
  }

  /** `get_answer_streaming`: the same, with the unstripped concatenation of the chunk texts. */
  function Streaming(s: Settings, st: State, prompt: string, stream: Stream, summarizer: Completion): (t: Turn)
    ensures stream.StreamError? ==>
              && t.returned == ErrorText(stream.message)
              && t.memory == RefusedMemory(st.memory, prompt) && t.written.None?
    ensures stream.Streamed? ==>
              && t.returned == StreamText(stream.chunks)
              && t.memory == AnsweredMemory(st.memory, prompt, StreamText(stream.chunks), s.memoryLimit, summarizer)
              && t.written == Some(t.memory)
  {
    Respond(s, st, prompt, FromStream(stream), summarizer)
  }

  /** `get_answer`: streaming exactly when `State.stream_enabled`; the blocking reply is stripped,
      the streamed one is the raw concatenation of the chunk texts. */
  function GetAnswer(s: Settings, st: State, prompt: string, completion: Completion, stream: Stream,
                     summarizer: Completion): (t: Turn)
    ensures st.streamEnabled ==> t == Streaming(s, st, prompt, stream, summarizer)
    ensures !st.streamEnabled ==> t == Blocking(s, st, prompt, completion, summarizer)
  {
    if st.streamEnabled then Streaming(s, st, prompt, stream, summarizer)
    else Blocking(s, st, prompt, completion, summarizer)
  }

  /** This front end and `ChatManager` make the same turn (memory, payload, returned text and
      trigger) and differ only in what they write: here every answered turn is saved, there only
      a summarization saves. */
  lemma AgreesWithChatManager(s: Settings, st: State, prompt: string, reply: Reply, summarizer: Completion)
    ensures var mgr := ChatManager.Manager(ChatManager.Config(s.intro, s.defaultPrompt, s.memoryLimit),
                                           st.streamEnabled, st.memory);
            var t1 := Respond(s, st, prompt, reply, summarizer);
            var t2 := ChatManager.Respond(mgr, prompt, reply, summarizer);
              && t1.memory == t2.memory
              && t1.payload == t2.payload
              && t1.returned == t2.returned
              && t1.summarized == t2.summarized
  {
    var m := st.memory;
    var full := m.recent + [Message(User, prompt)];
    if reply.Answered? {
      var full := full + [Message(Assistant, reply.text)];
      AgreesWithContextMemory(m.summary, full, s.memoryLimit, summarizer);
    }
  }
}

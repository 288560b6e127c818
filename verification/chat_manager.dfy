/** `ChatManager` (the packaged front end): a configuration, a streaming switch and a
    `ContextMemory`. Each turn appends the prompt, sends the payload, and on an answer appends it
    and summarizes once the buffer holds `2 * memory_limit` messages. It writes the memory file only
    through `ContextMemory.summarize`. */
module ChatManager {
  import opened Wrappers
  import opened Messages
  import opened PyText
  import opened Api
  import opened ContextMemory
  import opened Payload
  import opened Exchange

  /** The configuration fields the chat logic reads; `intro` is the memory-intro text. */
  datatype Config = Config(intro: string, defaultPrompt: string, memoryLimit: int)

  datatype Manager = Manager(config: Config, streamEnabled: bool, memory: Memory)

  /** `ChatManager(config, stream)`: a fresh memory, loaded from the memory file at once. */
  function Create(config: Config, stream: bool, file: MemoryFile): (m: Manager)
    ensures m.config == config && m.streamEnabled == stream
    ensures (file.Absent? || file.Corrupt?) ==> IsEmpty(m.memory)
    ensures file.Record? ==> m.memory.summary == file.summary.GetOr("") && m.memory.recent == file.recent.GetOr([])
  {
    Manager(config, stream, Load(Fresh(), file))
  }

  datatype Check = Check(memory: Memory, summarized: bool, saved: bool)

  /** `_check_memory_limit`: summarize exactly when the buffer holds at least `2 * memory_limit`
      messages; otherwise change and write nothing. */
  function CheckMemoryLimit(config: Config, m: Memory, summarizer: Completion): (c: Check)
    ensures c.summarized <==> |m.recent| >= 2 * config.memoryLimit
    ensures !c.summarized ==> c.memory == m && !c.saved
    ensures c.summarized ==> var s := Summarize(m, config.memoryLimit, summarizer);
                               c.memory == s.memory && c.saved == s.saved
  {
    if |m.recent| >= config.memoryLimit * 2 then
      var s := Summarize(m, config.memoryLimit, summarizer);
      Check(s.memory, true, s.saved)
    else
      Check(m, false, false)
  }

  /** The part of a turn both answer paths share, given what the request produced. The payload is
      built after the prompt has been appended and before anything else changes. */
  function Respond(mgr: Manager, prompt: string, reply: Reply, summarizer: Completion): (t: Turn)
    ensures var m := mgr.memory; var cfg := mgr.config;
              t.payload == Build(cfg.intro, cfg.defaultPrompt, m.summary, m.recent + [Message(User, prompt)], cfg.memoryLimit)
    ensures reply.Refused? ==>
              && t.memory == RefusedMemory(mgr.memory, prompt)
              && t.returned == ErrorText(reply.error)
              && !t.summarized && t.written.None?
    ensures reply.Answered? ==>
              && t.returned == reply.text
              && t.memory == AnsweredMemory(mgr.memory, prompt, reply.text, mgr.config.memoryLimit, summarizer)
              && (t.summarized <==> |mgr.memory.recent| + 2 >= 2 * mgr.config.memoryLimit)
              && t.written == (if t.summarized && summarizer.Completed? then Some(t.memory) else None)
  {
    var m := mgr.memory;
    var cfg := mgr.config;
    var grown := m.recent + [Message(User, prompt)];
    var payload := Build(cfg.intro, cfg.defaultPrompt, m.summary, grown, cfg.memoryLimit);
    match reply
    case Refused(e) =>
      Turn(Memory(m.summary, grown), payload, ErrorText(e), false, None)
    case Answered(text) =>
      var c := CheckMemoryLimit(cfg, Memory(m.summary, grown + [Message(Assistant, text)]), summarizer);
      CheckIsAnswered(cfg, m, prompt, text, summarizer);
      Turn(c.memory, payload, text, c.summarized, if c.saved then Some(c.memory) else None)
  }

  /** The limit check after an answer leaves the answered memory, and saves exactly when it
      summarized successfully. */
  lemma CheckIsAnswered(cfg: Config, m: Memory, prompt: string, text: string, summarizer: Completion)
    ensures var c := CheckMemoryLimit(cfg, Memory(m.summary, m.recent + [Message(User, prompt)] + [Message(Assistant, text)]), summarizer);
              && c.memory == AnsweredMemory(m, prompt, text, cfg.memoryLimit, summarizer)
              && (c.summarized <==> |m.recent| + 2 >= 2 * cfg.memoryLimit)
              && (c.saved <==> c.summarized && summarizer.Completed?)
  {
    assert m.recent + [Message(User, prompt)] + [Message(Assistant, text)]
        == m.recent + [Message(User, prompt), Message(Assistant, text)];
  }

  /** `_get_answer_blocking`: an error returns its message with only the prompt appended; a
      completion appends the prompt and the stripped content, then checks the limit. */
  function Blocking(mgr: Manager, prompt: string, completion: Completion, summarizer: Completion): (t: Turn)
    ensures completion.ApiError? ==>
              && t.returned == ErrorText(completion.message)
              && t.memory == RefusedMemory(mgr.memory, prompt) && t.written.None?
    ensures completion.Completed? ==>
              && t.returned == Strip(completion.content)
              && t.memory == AnsweredMemory(mgr.memory, prompt, Strip(completion.content), mgr.config.memoryLimit, summarizer)
  {
    Respond(mgr, prompt, FromCompletion(completion), summarizer)
  }

  /** `_get_answer_streaming`: an error at the request returns its message with only the prompt
      appended; a stream appends the prompt and the unstripped concatenation of its chunk texts. */
  function Streaming(mgr: Manager, prompt: string, stream: Stream, summarizer: Completion): (t: Turn)
    ensures stream.StreamError? ==>
              && t.returned == ErrorText(stream.message)
              && t.memory == RefusedMemory(mgr.memory, prompt) && t.written.None?
    ensures stream.Streamed? ==>
              && t.returned == StreamText(stream.chunks)
              && t.memory == AnsweredMemory(mgr.memory, prompt, StreamText(stream.chunks), mgr.config.memoryLimit, summarizer)
  {
    Respond(mgr, prompt, FromStream(stream), summarizer)
  }

  /** A blocking success that does not reach the threshold grows the buffer by exactly the user
      message followed by the stripped reply. */
  lemma BlockingSuccessAppendsExchange(mgr: Manager, prompt: string, content: string,
                                       usage: Option<int>, summarizer: Completion)
    requires |mgr.memory.recent| + 2 < 2 * mgr.config.memoryLimit
    ensures var t := Blocking(mgr, prompt, Completed(content, usage), summarizer);
              && t.memory.summary == mgr.memory.summary
              && t.memory.recent == mgr.memory.recent + [Message(User, prompt), Message(Assistant, Strip(content))]
              && t.returned == Strip(content)
  {
  }

  /** After an answer, summarization runs exactly when the grown buffer (prompt and reply added)
      reaches `2 * memory_limit`; after an error it never runs. */
  lemma SummarizeTrigger(mgr: Manager, prompt: string, reply: Reply, summarizer: Completion)
    ensures var t := Respond(mgr, prompt, reply, summarizer);
              t.summarized <==> reply.Answered? && |mgr.memory.recent| + 2 >= 2 * mgr.config.memoryLimit
  {
  }

  /** The buffer bound: with a positive limit, a turn whose request and summarization both succeed
      always leaves fewer than `2 * memory_limit` messages, however long the buffer was before. */
  lemma SuccessRestoresBound(mgr: Manager, prompt: string, reply: Reply, summarizer: Completion)
    requires mgr.config.memoryLimit >= 1
    requires reply.Answered? && summarizer.Completed?
    ensures |Respond(mgr, prompt, reply, summarizer).memory.recent| < 2 * mgr.config.memoryLimit
  {
  }

  /** Below the threshold this front end writes nothing: the memory file is not updated after an
      ordinary turn. */
  lemma NoWriteBelowThreshold(mgr: Manager, prompt: string, reply: Reply, summarizer: Completion)
    requires |mgr.memory.recent| + 2 < 2 * mgr.config.memoryLimit
    ensures Respond(mgr, prompt, reply, summarizer).written.None?
  {
  }

  /** With a positive limit the new prompt is the last entry of the request payload. */
  lemma PromptIsLastPayloadEntry(mgr: Manager, prompt: string, reply: Reply, summarizer: Completion)
    requires mgr.config.memoryLimit >= 1
    ensures var p := Respond(mgr, prompt, reply, summarizer).payload;
              |p| > 0 && p[|p| - 1] == Message(User, prompt)
  {
    var m := mgr.memory;
    var cfg := mgr.config;
    LastEntryIsNewest(cfg.intro, cfg.defaultPrompt, m.summary, m.recent, Message(User, prompt), cfg.memoryLimit);
  }

  // ---------------------------------------------------------------------------
  // get_answer
  // ---------------------------------------------------------------------------

  /** What `get_answer` hands back: a bare string or a `(text, usage)` pair. */
  datatype Answer = Bare(text: string) | WithUsage(text: string, usage: Option<int>)

  /** `get_answer` as written: in streaming mode the shape follows `return_usage`; in blocking mode
      it does not: an answer is always a pair and an error is always a bare string. */
  function GetAnswerAsWritten(mgr: Manager, prompt: string, returnUsage: bool,
                              completion: Completion, stream: Stream, summarizer: Completion)
    : (r: (Turn, Answer))
    ensures r.1.text == r.0.returned
    ensures mgr.streamEnabled ==>
              && r.0 == Streaming(mgr, prompt, stream, summarizer)
              && r.1 == (if returnUsage then WithUsage(r.0.returned, None) else Bare(r.0.returned))
    ensures !mgr.streamEnabled ==> r.0 == Blocking(mgr, prompt, completion, summarizer)
    ensures !mgr.streamEnabled ==> (r.1.WithUsage? <==> completion.Completed?)
    ensures !mgr.streamEnabled && completion.Completed? ==> r.1 == WithUsage(r.0.returned, completion.usage)
  {
    if mgr.streamEnabled then
      var t := Streaming(mgr, prompt, stream, summarizer);
      (t, if returnUsage then WithUsage(t.returned, None) else Bare(t.returned))
    else
      var t := Blocking(mgr, prompt, completion, summarizer);
      (t, if completion.Completed? then WithUsage(t.returned, completion.usage) else Bare(t.returned))
  }

  /** The discrepancy: in blocking mode with `return_usage` set, an API error comes back as a bare
      string, which the REPL's `response, usage = ...` cannot unpack. */
  lemma BlockingErrorIgnoresReturnUsage(mgr: Manager, prompt: string, e: string,
                                        stream: Stream, summarizer: Completion)
    requires !mgr.streamEnabled
    ensures var r := GetAnswerAsWritten(mgr, prompt, true, ApiError(e), stream, summarizer);
              r.1 == Bare(ErrorText(e))
  {
  }

  /** `get_answer` as evidently intended: the same turn, in streaming or blocking mode as
      `stream_enabled` says, answered as a pair exactly when `return_usage` is set. */
  function GetAnswer(mgr: Manager, prompt: string, returnUsage: bool,
                     completion: Completion, stream: Stream, summarizer: Completion)
    : (r: (Turn, Answer))
    ensures r.1.WithUsage? <==> returnUsage
    ensures r.1.text == r.0.returned
    ensures mgr.streamEnabled ==> r.0 == Streaming(mgr, prompt, stream, summarizer)
    ensures !mgr.streamEnabled ==> r.0 == Blocking(mgr, prompt, completion, summarizer)
    ensures r.1.WithUsage? && (mgr.streamEnabled || completion.ApiError?) ==> r.1.usage.None?
    ensures r.1.WithUsage? && !mgr.streamEnabled && completion.Completed? ==> r.1.usage == completion.usage
  {
    var t := if mgr.streamEnabled then Streaming(mgr, prompt, stream, summarizer)
             else Blocking(mgr, prompt, completion, summarizer);
    var usage := if !mgr.streamEnabled && completion.Completed? then completion.usage else None;
    (t, if returnUsage then WithUsage(t.returned, usage) else Bare(t.returned))
  }

  /** The correction changes only the shape of the answer: the turn, and every answer whose shape
      was already right, are as written. */
  lemma GetAnswerRefinesAsWritten(mgr: Manager, prompt: string, returnUsage: bool,
                                  completion: Completion, stream: Stream, summarizer: Completion)
    ensures var fixed := GetAnswer(mgr, prompt, returnUsage, completion, stream, summarizer);
            var asIs := GetAnswerAsWritten(mgr, prompt, returnUsage, completion, stream, summarizer);
              && fixed.0 == asIs.0
              && (mgr.streamEnabled ==> fixed == asIs)
              && (asIs.1.WithUsage? == returnUsage ==> fixed.1 == asIs.1)
  {
  }
}

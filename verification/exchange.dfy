/** What all three chat front ends share: the answer to one request and the result of one turn. */
module Exchange {
  import opened Wrappers
  import opened PyText
  import opened Api
  import opened Messages
  import opened ContextMemory

  /** The answer to a chat request, after the front end has processed it. */
  datatype Reply = Answered(text: string) | Refused(error: string)

  /** The string a front end returns when the request raised an SDK error. */
  function ErrorText(e: string): string {
    "❌ OpenAI API error: " + e
  }

  /** Blocking mode: the reply is the first choice's content, stripped. */
  function FromCompletion(c: Completion): (r: Reply)
    ensures c.Completed? <==> r.Answered?
    ensures r.Answered? ==> r.text == Strip(c.content)
    ensures r.Refused? ==> r.error == c.message
  {
    match c
    case Completed(content, _) => Answered(Strip(content))
    case ApiError(e) => Refused(e)
  }

  /** Streaming mode: the reply is the concatenation of the chunk texts, NOT stripped. */
  function FromStream(s: Stream): (r: Reply)
    ensures s.Streamed? <==> r.Answered?
    ensures r.Answered? ==> r.text == StreamText(s.chunks)
    ensures r.Refused? ==> r.error == s.message
  {
    match s
    case Streamed(chunks) => Answered(StreamText(chunks))
    case StreamError(e) => Refused(e)
  }

  /** The memory an answered turn leaves, in every front end: the buffer grows by the prompt and the
      reply; once it holds at least `2 * limit` messages, a successful summarization replaces the
      summary by its stripped answer and empties the buffer, while a failed one keeps the grown
      buffer and the old summary. */
  function AnsweredMemory(m: Memory, prompt: string, text: string, limit: int, summarizer: Completion): Memory {
    var grown := m.recent + [Message(User, prompt), Message(Assistant, text)];
    if |grown| >= 2 * limit && summarizer.Completed? then Memory(Strip(summarizer.content), [])
    else Memory(m.summary, grown)
  }

  /** The memory a refused turn leaves: the prompt stays appended, nothing else changes. */
  function RefusedMemory(m: Memory, prompt: string): Memory {
    Memory(m.summary, m.recent + [Message(User, prompt)])
  }

  /** One turn: the memory afterwards, the request payload that was sent, the string returned to
      the caller, whether the buffer reached the summarization threshold, and what (if anything)
      was written to the memory file. */
  datatype Turn = Turn(
    memory: Memory,
    payload: seq<Message>,
    returned: string,
    summarized: bool,
    written: Option<Memory>)
}

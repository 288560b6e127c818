/** The `ContextMemory` class: a rolling summary plus a buffer of recent messages, persisted as a JSON
    object `{"summary": ..., "recent": [...]}`. Each method is a transition over the pair. */
module ContextMemory {
  import opened Wrappers
  import opened Messages
  import opened PyText
  import opened Api

  datatype Memory = Memory(summary: string, recent: seq<Message>)

  /** The memory file as `load` can find it: missing, not valid JSON, or a JSON object whose
      "summary" and "recent" keys may each be missing. */
  datatype MemoryFile = Absent | Corrupt | Record(summary: Option<string>, recent: Option<seq<Message>>)

  predicate IsEmpty(m: Memory) {
    m.summary == "" && |m.recent| == 0
  }

  /** A new `ContextMemory`: empty summary, empty buffer. */
  function Fresh(): (m: Memory)
    ensures IsEmpty(m)
  {
    Memory("", [])
  }

  /** `load`: a missing file keeps the current state; a corrupt one resets it; a record replaces it,
      missing keys defaulting to "" and []. The returned pair is the state after loading. */
  function Load(m: Memory, file: MemoryFile): (r: Memory)
    ensures file.Absent? ==> r == m
    ensures file.Corrupt? ==> IsEmpty(r)
    ensures file.Record? ==> r.summary == file.summary.GetOr("") && r.recent == file.recent.GetOr([])
  {
    match file
    case Absent => m
    case Corrupt => Fresh()
    case Record(s, rs) => Memory(s.GetOr(""), rs.GetOr([]))
  }

  /** `save`: the record written always carries both keys. */
  function Save(m: Memory): (f: MemoryFile)
    ensures f.Record? && f.summary.Some? && f.recent.Some?
  {
    Record(Some(m.summary), Some(m.recent))
  }

  /** Round trip: whatever state a memory is in, loading what `save` wrote restores exactly the
      saved summary and buffer. */
  lemma LoadSave(saved: Memory, current: Memory)
    ensures Load(current, Save(saved)) == saved
  {
  }

  /** Except when the file is missing, the state before `load` plays no part in the state after. */
  lemma LoadForgetsPriorState(m1: Memory, m2: Memory, file: MemoryFile)
    requires !file.Absent?
    ensures Load(m1, file) == Load(m2, file)
  {
  }

  /** How `os.remove` of an existing memory file ends. */
  datatype Removal = Removed | PermissionDenied

  datatype ResetResult = ResetResult(memory: Memory, file: MemoryFile)

  /** `reset`: delete the file and clear the state; when the file exists but may not be removed,
      state and file stay as they were. */
  function Reset(m: Memory, file: MemoryFile, removal: Removal): (r: ResetResult)
    ensures (file.Absent? || removal.Removed?) ==> IsEmpty(r.memory) && r.file.Absent?
    ensures (!file.Absent? && removal.PermissionDenied?) ==> r.memory == m && r.file == file
  {
    if file.Absent? then ResetResult(Fresh(), Absent)
    else if removal.PermissionDenied? then ResetResult(m, file)
    else ResetResult(Fresh(), Absent)
  }

  /** The messages `summarize` sends: `recent_messages[-(memory_limit * 2):]`. */
  function Batch(recent: seq<Message>, limit: int): seq<Message> {
    Last(recent, limit * 2)
  }

  /** One `Role: content` line of the summary prompt. */
  function BatchLine(m: Message): string {
    Label(m.role) + ": " + m.content
  }

  function BatchLines(batch: seq<Message>): (ls: seq<string>)
    ensures |ls| == |batch|
    ensures forall i :: 0 <= i < |batch| ==> ls[i] == BatchLine(batch[i])
  {
    if |batch| == 0 then [] else [BatchLine(batch[0])] + BatchLines(batch[1..])
  }

  const SummaryHeading: string := "Here is the current summary of our conversation:\n"
  const UpdateHeading: string := "\n\nPlease update it with the following messages:\n"

  /** The user message of the summarization request: the current summary, then the batch as
      `Role: content` lines joined by "\n". */
  function SummaryPrompt(summary: string, batch: seq<Message>): string {
    SummaryHeading + summary + UpdateHeading + JoinLines(BatchLines(batch))
  }

  /** The result of `summarize`: the state afterwards (which is also what it returns), the prompt
      sent to the summarizer if a request was made, and whether the state was saved. */
  datatype Summarization = Summarization(memory: Memory, request: Option<string>, saved: bool)

  /** `summarize`: with an empty buffer, save and return without a request. Otherwise ask the
      summarizer about the batch; on success the stripped answer becomes the summary and the WHOLE
      buffer is cleared and saved; on any failure nothing changes and nothing is saved. */
  function Summarize(m: Memory, limit: int, outcome: Completion): (r: Summarization)
    ensures |m.recent| == 0 ==> r.memory == m && r.request.None? && r.saved
    ensures |m.recent| > 0 ==> r.request == Some(SummaryPrompt(m.summary, Batch(m.recent, limit)))
    ensures |m.recent| > 0 && outcome.Completed? ==>
              r.memory == Memory(Strip(outcome.content), []) && r.saved
    ensures |m.recent| > 0 && outcome.ApiError? ==> r.memory == m && !r.saved
  {
    if |m.recent| == 0 then
      Summarization(m, None, true)
    else
      var prompt := SummaryPrompt(m.summary, Batch(m.recent, limit));
      match outcome
      case Completed(content, _) => Summarization(Memory(Strip(content), []), Some(prompt), true)
      case ApiError(_) => Summarization(m, Some(prompt), false)
  }

  /** With a positive limit the batch is the last `min(2 * limit, n)` messages in original order. */
  lemma BatchIsNewestMessages(recent: seq<Message>, limit: int)
    requires limit >= 1
    ensures var b := Batch(recent, limit);
              && |b| == Min(2 * limit, |recent|)
              && b == recent[|recent| - |b|..]
  {
    var b := Batch(recent, limit);
    assert recent == recent[..|recent| - |b|] + b;
    assert recent[|recent| - |b|..] == b;
  }

  /** A successful summarization also clears messages older than the batch: those never reach the
      summarizer, yet they are gone from the buffer afterwards. */
  lemma {:induction false} SummarizeDropsUnbatched(m: Memory, limit: int, outcome: Completion)
    requires limit >= 1 && |m.recent| > 2 * limit && outcome.Completed?
    ensures var r := Summarize(m, limit, outcome);
              && |Batch(m.recent, limit)| < |m.recent|
              && r.memory.recent == []
              && r.request == Some(SummaryPrompt(m.summary, m.recent[|m.recent| - 2 * limit..]))
  {
    BatchIsNewestMessages(m.recent, limit);
  }

  /** Summarization never makes the buffer longer: it either keeps it or empties it. */
  lemma SummarizeShrinksOrKeeps(m: Memory, limit: int, outcome: Completion)
    ensures var r := Summarize(m, limit, outcome);
              r.memory == m || (r.memory.recent == [] && r.saved)
  {
  }
}

/** `summarize_recent`, which `blackcortex_cli/chat.py` imports from `blackcortex_cli.memory`, a
    package that is not part of this model. It is specified only by the behaviour that package's
    tests pin down. `gpt.py` imports a function of the same name from `core.memory`, which is not
    part of this model either; `Gpt` assumes it behaves the same. */
module MemoryPackage {
  import opened PyText
  import opened Api
  import opened Messages
  import ContextMemory

  /** `summarize_recent(client, model, path, summary, recent, limit, max_tokens)`, as the returned
      pair: an empty buffer is returned as `(summary, [])`; a failed request returns the inputs
      unchanged; a successful one returns the stripped answer and an empty buffer. */
  function SummarizeRecent(summary: string, recent: seq<Message>, outcome: Completion)
    : (r: ContextMemory.Memory)
    ensures |recent| == 0 || outcome.ApiError? ==> r == ContextMemory.Memory(summary, recent)
    ensures |recent| > 0 && outcome.Completed? ==> r.summary == Strip(outcome.content) && r.recent == []
  {
    if |recent| == 0 then ContextMemory.Memory(summary, [])
    else if outcome.ApiError? then ContextMemory.Memory(summary, recent)
    else ContextMemory.Memory(Strip(outcome.content), [])
  }

  /** The package function and `ContextMemory.summarize` make the same state transition, whatever
      the limit. */
  lemma AgreesWithContextMemory(summary: string, recent: seq<Message>, limit: int, outcome: Completion)
    ensures SummarizeRecent(summary, recent, outcome)
            == ContextMemory.Summarize(ContextMemory.Memory(summary, recent), limit, outcome).memory
  {
  }
}

/** The hosted chat-completions service, as the outcomes the program can observe from it. */
module Api {
  import opened Wrappers

  /** A blocking request: the first choice's message content and, when the response carries it,
      the token usage; or the error the SDK raised. */
  datatype Completion = Completed(content: string, usage: Option<int>) | ApiError(message: string)

  /** One streamed chunk: `choices[0].delta` may be absent, and its `content` may be null. */
  datatype Chunk = NoDelta | Delta(content: Option<string>)

  /** A streaming request: the chunks it yields, or the error raised when it was opened. */
  datatype Stream = Streamed(chunks: seq<Chunk>) | StreamError(message: string)

  /** What one chunk adds to the reply: nothing for a missing delta or null content. */
  function ChunkText(c: Chunk): string {
    match c
    case NoDelta => ""
    case Delta(None) => ""
    case Delta(Some(t)) => t
  }

  /** Reference definition of a streamed reply: every chunk's text, in order. */
  function StreamText(chunks: seq<Chunk>): string
  {
    if |chunks| == 0 then "" else StreamText(chunks[..|chunks| - 1]) + ChunkText(chunks[|chunks| - 1])
  }

  /** The streaming loop: `content` is the delta's content or ""; only truthy content (present and
      non-empty) is appended. The result is the in-order concatenation of all chunk texts. */
  method CollectStream(chunks: seq<Chunk>) returns (full: string)
    ensures full == StreamText(chunks)
  {
    full := "";
    var i := 0;
    while i < |chunks|
      invariant 0 <= i <= |chunks|
      invariant full == StreamText(chunks[..i])
    {
      var content: Option<string> := if chunks[i].Delta? then chunks[i].content else Some("");
      if content.Some? && content.value != "" {
        full := full + content.value;
      }
      assert chunks[..i + 1][..i] == chunks[..i];
      i := i + 1;
    }
    assert chunks[..i] == chunks;
  }

  /** A stream none of whose chunks carries text yields the empty reply. */
  lemma {:induction false} SilentStreamIsEmpty(chunks: seq<Chunk>)
    requires forall i :: 0 <= i < |chunks| ==> ChunkText(chunks[i]) == ""
    ensures StreamText(chunks) == ""
  {
    if |chunks| > 0 {
      SilentStreamIsEmpty(chunks[..|chunks| - 1]);
    }
  }

  /** The reply to a stream split in two is the reply to the first part followed by the reply to
      the second: concatenation does not depend on how the chunks arrive. */
  lemma {:induction false} StreamTextSplit(xs: seq<Chunk>, ys: seq<Chunk>)
    ensures StreamText(xs + ys) == StreamText(xs) + StreamText(ys)
    decreases |ys|
  {
    if |ys| == 0 {
      assert xs + ys == xs;
    } else {
      var init := ys[..|ys| - 1];
      assert (xs + ys)[..|xs + ys| - 1] == xs + init;
      StreamTextSplit(xs, init);
    }
  }
}

/** The request payload all three front ends build: an INTRO system message, an INSTRUCTIONS one when
    a default prompt is configured, a SUMMARY one when the rolling summary is non-empty, then
    `recent_messages[-memory_limit:]`. */
module Payload {
  import opened Wrappers
  import opened Messages
  import opened PyText

  const IntroTag: string := "INTRO: "
  const InstructionsTag: string := "INSTRUCTIONS: "
  const SummaryTag: string := "SUMMARY: "

  /** Python truthiness of a string setting: unset (empty) becomes None. */
  function IfSet(s: string): Option<string> {
    if s != "" then Some(s) else None
  }

  function HeaderCount(defaultPrompt: string, summary: string): nat {
    1 + (if defaultPrompt != "" then 1 else 0) + (if summary != "" then 1 else 0)
  }

  /** The payload for a turn. */
  function Build(intro: string, defaultPrompt: string, summary: string, recent: seq<Message>, limit: int)
    : (p: seq<Message>)
    ensures |p| == HeaderCount(defaultPrompt, summary) + |Last(recent, limit)|
    ensures p[0] == Message(System, IntroTag + intro)
    ensures p[HeaderCount(defaultPrompt, summary)..] == Last(recent, limit)
    ensures forall i :: 0 <= i < HeaderCount(defaultPrompt, summary) ==> p[i].role == System
    ensures defaultPrompt != "" ==> p[1] == Message(System, InstructionsTag + defaultPrompt)
    ensures summary != "" ==> p[HeaderCount(defaultPrompt, summary) - 1] == Message(System, SummaryTag + summary)
  {
    var tail := Last(recent, limit);
    var p := [Message(System, IntroTag + intro)]
             + Optional(InstructionsTag, defaultPrompt, Optional(SummaryTag, summary, tail));
    BuildShape(intro, defaultPrompt, summary, tail, p);
    p
  }

  lemma BuildShape(intro: string, defaultPrompt: string, summary: string, tail: seq<Message>, p: seq<Message>)
    requires p == [Message(System, IntroTag + intro)]
                  + Optional(InstructionsTag, defaultPrompt, Optional(SummaryTag, summary, tail))
    ensures |p| == HeaderCount(defaultPrompt, summary) + |tail|
    ensures p[HeaderCount(defaultPrompt, summary)..] == tail
    ensures forall i :: 0 <= i < HeaderCount(defaultPrompt, summary) ==> p[i].role == System
    ensures defaultPrompt != "" ==> p[1] == Message(System, InstructionsTag + defaultPrompt)
    ensures summary != "" ==> p[HeaderCount(defaultPrompt, summary) - 1] == Message(System, SummaryTag + summary)
  {
    var r := Optional(SummaryTag, summary, tail);
    var q := Optional(InstructionsTag, defaultPrompt, r);
    var k := HeaderCount(defaultPrompt, summary);
    assert k == 1 + (|q| - |r|) + (|r| - |tail|);
    assert p[1..] == q;
    assert p[k..] == q[|q| - |r|..][|r| - |tail|..];
    forall i | 0 <= i < k ensures p[i].role == System {
      if 1 <= i {
        assert p[i] == q[i - 1];
        if i - 1 >= |q| - |r| {
          assert q[i - 1] == r[i - 1 - (|q| - |r|)];
        }
      }
    }
    if defaultPrompt != "" {
      assert p[1] == q[0];
    }
    if summary != "" {
      assert p[k - 1] == q[k - 2];
      assert q[k - 2] == r[0];
    }
  }

  /** The optional header for `value` in front of `rest`: present exactly when `value` is set. */
  function Optional(tag: string, value: string, rest: seq<Message>): (o: seq<Message>)
    ensures |o| == |rest| + (if value != "" then 1 else 0)
    ensures o[|o| - |rest|..] == rest
    ensures value != "" ==> o[0] == Message(System, tag + value)
    ensures forall i :: 0 <= i < |o| - |rest| ==> o[i].role == System
  {
    var o := (if value != "" then [Message(System, tag + value)] else []) + rest;
    assert o[|o| - |rest|..] == rest;
    o
  }

  /** A payload read back into its parts. */
  datatype Parts = Parts(intro: string, instructions: Option<string>, summary: Option<string>, turns: seq<Message>)

  /** The system message at the head of `p` when it carries `tag`, with the tag removed. */
  function Tagged(p: seq<Message>, tag: string): Option<string> {
    if |p| > 0 && p[0].role == System && tag <= p[0].content then Some(p[0].content[|tag|..]) else None
  }

  /** Reads a payload back: the INTRO, then an optional INSTRUCTIONS, then an optional SUMMARY,
      then the conversation turns. */
  function Parse(p: seq<Message>): Option<Parts> {
    match Tagged(p, IntroTag)
    case None => None
    case Some(intro) =>
      var q := p[1..];
      var instructions := Tagged(q, InstructionsTag);
      var r := if instructions.Some? then q[1..] else q;
      var summary := Tagged(r, SummaryTag);
      var turns := if summary.Some? then r[1..] else r;
      Some(Parts(intro, instructions, summary, turns))
  }

  lemma TaggedOf(tag: string, text: string, rest: seq<Message>)
    ensures Tagged([Message(System, tag + text)] + rest, tag) == Some(text)
  {
    assert tag <= tag + text;
    assert (tag + text)[|tag|..] == text;
  }

  lemma SuffixConversational(recent: seq<Message>, limit: int)
    requires Conversational(recent)
    ensures Conversational(Last(recent, limit))
  {
    var tail := Last(recent, limit);
    forall i | 0 <= i < |tail| ensures tail[i].role != System {
      assert recent == recent[..|recent| - |tail|] + tail;
      assert tail[i] == recent[|recent| - |tail| + i];
    }
  }

  /** Reading one optional header off the front: the value iff it was set, and the rest after it. */
  lemma ReadOptional(tag: string, value: string, rest: seq<Message>)
    requires Tagged(rest, tag) == None
    ensures var q := Optional(tag, value, rest);
              && Tagged(q, tag) == IfSet(value)
              && (if Tagged(q, tag).Some? then q[1..] else q) == rest
  {
    var q := Optional(tag, value, rest);
    if value != "" {
      TaggedOf(tag, value, rest);
      assert q[1..] == rest;
    } else {
      assert q == rest;
    }
  }

  /** A SUMMARY header is never mistaken for an INSTRUCTIONS one. */
  lemma SummaryIsNotInstructions(summary: string, tail: seq<Message>)
    requires Conversational(tail)
    ensures Tagged(Optional(SummaryTag, summary, tail), InstructionsTag) == None
  {
    var r := Optional(SummaryTag, summary, tail);
    if summary != "" {
      assert r[0].content == SummaryTag + summary;
      assert r[0].content[2] != InstructionsTag[2];
    } else {
      assert r == tail;
    }
  }

  /** Round trip: over a conversational buffer, the payload shows INSTRUCTIONS exactly when a default
      prompt is set and SUMMARY exactly when the summary is non-empty, in that order after INTRO,
      followed by exactly `recent[-limit:]`. */
  lemma {:induction false} ParseBuild(intro: string, defaultPrompt: string, summary: string,
                                      recent: seq<Message>, limit: int)
    requires Conversational(recent)
    ensures Parse(Build(intro, defaultPrompt, summary, recent, limit))
            == Some(Parts(intro, IfSet(defaultPrompt), IfSet(summary), Last(recent, limit)))
  {
    var tail := Last(recent, limit);
    SuffixConversational(recent, limit);
    var r := Optional(SummaryTag, summary, tail);
    ReadOptional(SummaryTag, summary, tail);
    var q := Optional(InstructionsTag, defaultPrompt, r);
    SummaryIsNotInstructions(summary, tail);
    ReadOptional(InstructionsTag, defaultPrompt, r);
    var p := [Message(System, IntroTag + intro)] + q;
    TaggedOf(IntroTag, intro, q);
    assert p[1..] == q;
  }

  /** With a positive limit, the newest buffer message (the prompt just appended) is the last
      entry of the payload. */
  lemma LastEntryIsNewest(intro: string, defaultPrompt: string, summary: string,
                          recent: seq<Message>, newest: Message, limit: int)
    requires limit >= 1
    ensures var p := Build(intro, defaultPrompt, summary, recent + [newest], limit);
              p[|p| - 1] == newest
  {
    var xs := recent + [newest];
    var t := Last(xs, limit);
    assert xs == xs[..|xs| - |t|] + t;
    assert t[|t| - 1] == xs[|xs| - 1];
  }
}

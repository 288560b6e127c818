/** The `.env` rewrite of `command_set_key`: every line mentioning `OPENAI_API_KEY=` is replaced by
    the new key line, every other line is kept, and the key line is appended when no line mentioned
    the variable. */
module EnvFile {
  import opened Wrappers
  import opened PyText

  const Marker: string := "OPENAI_API_KEY="

  function KeyLine(key: string): string {
    Marker + key + "\n"
  }

  predicate HasMarker(line: string) {
    Contains(line, Marker)
  }

  predicate AnyMarker(lines: seq<string>) {
    exists i :: 0 <= i < |lines| && HasMarker(lines[i])
  }

  lemma KeyLineHasMarker(key: string)
    ensures HasMarker(KeyLine(key))
  {
    assert Marker <= KeyLine(key);
  }

  /** The lines written for the existing lines, one for one. */
  function Replaced(lines: seq<string>, key: string): (out: seq<string>)
    ensures |out| == |lines|
    ensures forall i :: 0 <= i < |lines| ==> out[i] == if HasMarker(lines[i]) then KeyLine(key) else lines[i]
  {
    seq(|lines|, i requires 0 <= i < |lines| => if HasMarker(lines[i]) then KeyLine(key) else lines[i])
  }

  /** The lines the rewrite writes, in order. */
  function RewriteLines(lines: seq<string>, key: string): (out: seq<string>)
    ensures |out| == |lines| + (if AnyMarker(lines) then 0 else 1)
    ensures forall i :: 0 <= i < |lines| ==> out[i] == if HasMarker(lines[i]) then KeyLine(key) else lines[i]
    ensures !AnyMarker(lines) ==> out[|lines|] == KeyLine(key)
    ensures exists i :: 0 <= i < |out| && out[i] == KeyLine(key)
  {
    var out := Replaced(lines, key) + (if AnyMarker(lines) then [] else [KeyLine(key)]);
    KeyLinePresent(lines, key, out);
    out
  }

  lemma KeyLinePresent(lines: seq<string>, key: string, out: seq<string>)
    requires out == Replaced(lines, key) + (if AnyMarker(lines) then [] else [KeyLine(key)])
    ensures exists i :: 0 <= i < |out| && out[i] == KeyLine(key)
  {
    if AnyMarker(lines) {
      var i :| 0 <= i < |lines| && HasMarker(lines[i]);
      assert out[i] == KeyLine(key);
    } else {
      assert out[|lines|] == KeyLine(key);
    }
  }

  /** The writing loop of `command_set_key`, with its `found` flag: it writes exactly the lines of
      `RewriteLines`. */
  method WriteLines(lines: seq<string>, key: string) returns (written: seq<string>)
    ensures written == RewriteLines(lines, key)
  {
    written := [];
    var found := false;
    var i := 0;
    while i < |lines|
      invariant 0 <= i <= |lines|
      invariant written == Replaced(lines[..i], key)
      invariant found <==> AnyMarker(lines[..i])
    {
      if Contains(lines[i], Marker) {
        written := written + [KeyLine(key)];
        found := true;
      } else {
        written := written + [lines[i]];
      }
      assert lines[..i + 1][..i] == lines[..i];
      assert lines[..i + 1][i] == lines[i];
      i := i + 1;
    }
    assert lines[..i] == lines;
    if !found {
      written := written + [KeyLine(key)];
    }
  }

  /** Applying the rewrite twice to a list of lines is the same as applying it once. */
  lemma RewriteLinesIdempotent(lines: seq<string>, key: string)
    ensures RewriteLines(RewriteLines(lines, key), key) == RewriteLines(lines, key)
  {
    var once := RewriteLines(lines, key);
    KeyLineHasMarker(key);
    assert AnyMarker(once);
    var twice := RewriteLines(once, key);
    assert |twice| == |once|;
    forall i | 0 <= i < |once| ensures twice[i] == once[i] {
      if i < |lines| && !HasMarker(lines[i]) {
        assert once[i] == lines[i];
      }
    }
  }

  /** The key line as `readlines` would return it, provided the key holds no newline. */
  lemma KeyLineIsLine(key: string)
    requires forall k :: 0 <= k < |key| ==> key[k] != '\n'
    ensures IsLine(KeyLine(key))
  {
    var l := KeyLine(key);
    forall k | 0 <= k < |l| - 1 ensures l[k] != '\n' {
      if k >= |Marker| {
        assert l[k] == key[k - |Marker|];
      }
    }
  }

  lemma RewriteKeepsLines(lines: seq<string>, key: string)
    requires forall k :: 0 <= k < |key| ==> key[k] != '\n'
    requires forall i :: 0 <= i < |lines| ==> IsLine(lines[i])
    ensures forall i :: 0 <= i < |RewriteLines(lines, key)| ==> IsLine(RewriteLines(lines, key)[i])
  {
    KeyLineIsLine(key);
  }

  // ---------------------------------------------------------------------------
  // The file text: read with readlines, written line by line
  // ---------------------------------------------------------------------------

  /** The new `.env` text as the source computes it: read with `readlines`, rewrite, write each line
      back. When no line names the variable, the key line is appended to the text exactly as it
      was; when the text is empty or ends in a newline, it reads back as the rewritten lines. */
  function SetKeyTextAsWritten(text: string, key: string): (r: string)
    ensures !AnyMarker(ReadLines(text)) ==> r == text + KeyLine(key)
    ensures (forall k :: 0 <= k < |key| ==> key[k] != '\n') && (|text| == 0 || EndsWithNewline(text)) ==>
              ReadLines(r) == RewriteLines(ReadLines(text), key)
  {
    AsWrittenShape(text, key);
    Concat(RewriteLines(ReadLines(text), key))
  }

  lemma AsWrittenShape(text: string, key: string)
    ensures !AnyMarker(ReadLines(text)) ==> Concat(RewriteLines(ReadLines(text), key)) == text + KeyLine(key)
    ensures (forall k :: 0 <= k < |key| ==> key[k] != '\n') && (|text| == 0 || EndsWithNewline(text)) ==>
              ReadLines(Concat(RewriteLines(ReadLines(text), key))) == RewriteLines(ReadLines(text), key)
  {
    var lines := ReadLines(text);
    if !AnyMarker(lines) {
      NothingToReplace(lines, key);
      ConcatAppend(lines, KeyLine(key));
      ConcatReadLines(text);
    }
    if (forall k :: 0 <= k < |key| ==> key[k] != '\n') && (|text| == 0 || EndsWithNewline(text)) {
      ReadLinesTerminated(text);
      RewriteKeepsLines(lines, key);
      ReadLinesConcat(RewriteLines(lines, key));
    }
  }

  /** When the file is empty or ends in a newline, the source's rewrite is idempotent on the text. */
  lemma AsWrittenIdempotentOnTerminatedText(text: string, key: string)
    requires forall k :: 0 <= k < |key| ==> key[k] != '\n'
    requires |text| == 0 || EndsWithNewline(text)
    ensures SetKeyTextAsWritten(SetKeyTextAsWritten(text, key), key) == SetKeyTextAsWritten(text, key)
  {
    var lines := ReadLines(text);
    ReadLinesTerminated(text);
    RewriteKeepsLines(lines, key);
    ReadLinesConcat(RewriteLines(lines, key));
    RewriteLinesIdempotent(lines, key);
  }

  /** The discrepancy: when the last line has no newline and no line names the variable, the key
      line is written straight after it, so the key does not start a line of its own (it becomes
      part of the previous variable's value). */
  lemma AsWrittenGluesKeyToLastLine(text: string, key: string)
    requires |text| > 0 && !EndsWithNewline(text)
    requires !AnyMarker(ReadLines(text))
    ensures SetKeyTextAsWritten(text, key) == text + KeyLine(key)
    ensures SetKeyTextAsWritten(text, key)[|text| - 1] != '\n'
  {
    assert (text + KeyLine(key))[|text| - 1] == text[|text| - 1];
  }

  lemma NothingToReplace(lines: seq<string>, key: string)
    requires !AnyMarker(lines)
    ensures RewriteLines(lines, key) == lines + [KeyLine(key)]
  {
    var out := RewriteLines(lines, key);
    assert |out| == |lines| + 1;
    forall i | 0 <= i < |lines| ensures out[i] == lines[i] {
      assert !HasMarker(lines[i]);
    }
  }

  /** A one-line file too short to name the variable and without a final newline gets the key line
      glued to its only line. */
  lemma ShortLineGetsKeyAppended(text: string, key: string)
    requires 0 < |text| < |Marker|
    requires forall k :: 0 <= k < |text| ==> text[k] != '\n'
    ensures SetKeyTextAsWritten(text, key) == text + KeyLine(key)
  {
    var n := FirstLineLength(text);
    assert n == |text|;
    assert ReadLines(text) == [text] by {
      assert text[..n] == text;
      assert text[n..] == "";
    }
    assert !HasMarker(text) by {
      if HasMarker(text) {
        ContainsNoLonger(text, Marker);
      }
    }
    assert !AnyMarker(ReadLines(text));
  }

  /** A concrete instance: a one-line file `FOO=bar` without a trailing newline. */
  lemma AsWrittenExample()
    ensures SetKeyTextAsWritten("FOO=bar", "sk") == "FOO=barOPENAI_API_KEY=sk\n"
  {
    ShortLineGetsKeyAppended("FOO=bar", "sk");
  }

  lemma {:induction false} ConcatAppend(lines: seq<string>, l: string)
    ensures Concat(lines + [l]) == Concat(lines) + l
  {
    if |lines| > 0 {
      assert (lines + [l])[1..] == lines[1..] + [l];
      ConcatAppend(lines[1..], l);
    }
  }

  /** The lines with the last one terminated by a newline if it lacks one. */
  function Terminated(lines: seq<string>): (out: seq<string>)
    ensures |out| == |lines|
    ensures |lines| > 0 ==> out[..|lines| - 1] == lines[..|lines| - 1]
    ensures |lines| > 0 ==> EndsWithNewline(out[|out| - 1])
  {
    if |lines| == 0 || EndsWithNewline(lines[|lines| - 1]) then lines
    else lines[..|lines| - 1] + [lines[|lines| - 1] + "\n"]
  }

  /** The evidently intended rewrite: the same, after terminating an unterminated last line, so the
      key line always starts a line of its own. */
  function SetKeyText(text: string, key: string): string {
    Concat(RewriteLines(Terminated(ReadLines(text)), key))
  }

  lemma TerminatedLines(text: string)
    ensures forall i :: 0 <= i < |Terminated(ReadLines(text))| ==> IsLine(Terminated(ReadLines(text))[i])
  {
    var lines := ReadLines(text);
    ReadLinesShape(text);
    var ls := Terminated(lines);
    forall i | 0 <= i < |ls| ensures IsLine(ls[i]) {
      TerminatedLine(lines, i);
    }
  }

  /** One line of `Terminated(lines)`, for lines shaped as `readlines` returns them. */
  lemma TerminatedLine(lines: seq<string>, i: int)
    requires 0 <= i < |lines|
    requires forall j :: 0 <= j < |lines| ==> |lines[j]| > 0
    requires forall j, k :: 0 <= j < |lines| && 0 <= k < |lines[j]| - 1 ==> lines[j][k] != '\n'
    requires forall j :: 0 <= j < |lines| - 1 ==> EndsWithNewline(lines[j])
    ensures IsLine(Terminated(lines)[i])
  {
    var ls := Terminated(lines);
    var l := lines[i];
    assert |l| > 0;
    if i == |lines| - 1 && !EndsWithNewline(l) {
      assert ls[i] == l + "\n";
      forall k | 0 <= k < |ls[i]| - 1 ensures ls[i][k] != '\n' {
        assert ls[i][k] == l[k];
        if k < |l| - 1 {
          assert l[k] != '\n';
        }
      }
    } else {
      if i < |lines| - 1 {
        assert ls[..|lines| - 1] == lines[..|lines| - 1];
        assert ls[i] == ls[..|lines| - 1][i];
        assert EndsWithNewline(l);
      }
      assert ls[i] == l;
      forall k | 0 <= k < |l| - 1 ensures l[k] != '\n' {
      }
    }
  }

  /** Every line `readlines` returns is non-empty with no newline before its end, and every line but
      the last ends with a newline. */
  lemma {:induction false} ReadLinesShape(text: string)
    ensures forall i :: 0 <= i < |ReadLines(text)| ==> |ReadLines(text)[i]| > 0
    ensures forall i, k :: 0 <= i < |ReadLines(text)| && 0 <= k < |ReadLines(text)[i]| - 1 ==> ReadLines(text)[i][k] != '\n'
    ensures forall i :: 0 <= i < |ReadLines(text)| - 1 ==> EndsWithNewline(ReadLines(text)[i])
    decreases |text|
  {
    if |text| > 0 {
      var n := FirstLineLength(text);
      ReadLinesShape(text[n..]);
      var ls := ReadLines(text);
      assert ls[1..] == ReadLines(text[n..]);
      if |ls| > 1 {
        assert n < |text|;
      }
    }
  }

  /** With the correction the key is always defined on a line of its own, whatever the file held. */
  lemma KeyOnItsOwnLine(text: string, key: string)
    requires forall k :: 0 <= k < |key| ==> key[k] != '\n'
    ensures KeyLine(key) in ReadLines(SetKeyText(text, key))
  {
    var ls := Terminated(ReadLines(text));
    TerminatedLines(text);
    RewriteKeepsLines(ls, key);
    ReadLinesConcat(RewriteLines(ls, key));
  }

  /** With the correction the rewrite is idempotent on every file text. */
  lemma SetKeyTextIdempotent(text: string, key: string)
    requires forall k :: 0 <= k < |key| ==> key[k] != '\n'
    ensures SetKeyText(SetKeyText(text, key), key) == SetKeyText(text, key)
  {
    var ls := Terminated(ReadLines(text));
    var out := RewriteLines(ls, key);
    assert SetKeyText(text, key) == Concat(out);
    WrittenLinesReadBack(text, key);
    assert ReadLines(Concat(out)) == out;
    TerminatedOfLines(out);
    RewriteLinesIdempotent(ls, key);
  }

  /** The corrected file text reads back as the lines that were written, all terminated. */
  lemma WrittenLinesReadBack(text: string, key: string)
    requires forall k :: 0 <= k < |key| ==> key[k] != '\n'
    ensures var out := RewriteLines(Terminated(ReadLines(text)), key);
              && ReadLines(Concat(out)) == out
              && forall i :: 0 <= i < |out| ==> IsLine(out[i])
  {
    var ls := Terminated(ReadLines(text));
    TerminatedLines(text);
    RewriteKeepsLines(ls, key);
    ReadLinesConcat(RewriteLines(ls, key));
  }

  lemma TerminatedOfLines(lines: seq<string>)
    requires forall i :: 0 <= i < |lines| ==> IsLine(lines[i])
    ensures Terminated(lines) == lines
  {
    if |lines| > 0 {
      assert IsLine(lines[|lines| - 1]);
    }
  }

  /** On text that is empty or ends in a newline the correction changes nothing. */
  lemma SetKeyTextMatchesAsWritten(text: string, key: string)
    requires |text| == 0 || EndsWithNewline(text)
    ensures SetKeyText(text, key) == SetKeyTextAsWritten(text, key)
  {
    ReadLinesTerminated(text);
    var ls := ReadLines(text);
    if |ls| > 0 { assert IsLine(ls[|ls| - 1]); }
    assert Terminated(ls) == ls;
  }

  /** A missing or empty file ends up holding the key line alone. */
  lemma SetKeyTextOfEmpty(key: string)
    ensures SetKeyText("", key) == KeyLine(key)
  {
    assert ReadLines("") == [];
    assert Terminated([]) == [];
    assert !AnyMarker([]);
    assert RewriteLines([], key) == [KeyLine(key)];
    assert Concat([KeyLine(key)]) == KeyLine(key) + Concat([]);
  }

  // ---------------------------------------------------------------------------
  // command_set_key
  // ---------------------------------------------------------------------------

  /** What listing the models with the candidate key reports. */
  datatype Validation = KeyAccepted | KeyRejected(error: string)

  /** `command_set_key(api_key)`: without an argument the key is the stripped answer to the prompt.
      A rejected key returns before the file is read or written (None). Otherwise the new `.env`
      text as the source writes it: a missing file counts as no lines and then holds the key line
      alone; a file with no key line gets the key line appended to its text as it stands. */
  function SetKeyCommand(arg: Option<string>, entered: string, validation: Validation, env: Option<string>)
    : (r: Option<string>)
    ensures validation.KeyRejected? <==> r.None?
    ensures validation.KeyAccepted? && env.None? ==> r == Some(KeyLine(arg.GetOr(Strip(entered))))
    ensures validation.KeyAccepted? && env.Some? && !AnyMarker(ReadLines(env.value)) ==>
              r == Some(env.value + KeyLine(arg.GetOr(Strip(entered))))
    ensures validation.KeyAccepted? && env.Some? ==> r == Some(SetKeyTextAsWritten(env.value, arg.GetOr(Strip(entered))))
  {
    var key := if arg.None? then Strip(entered) else arg.value;
    match validation
    case KeyRejected(_) => None
    case KeyAccepted =>
      if env.None? then
        assert ReadLines("") == [];
        assert "" + KeyLine(key) == KeyLine(key);
        Some(SetKeyTextAsWritten("", key))
      else
        Some(SetKeyTextAsWritten(env.value, key))
  }

  /** `command_set_key` with the corrected rewrite: the same validation and key, and the key line
      always on a line of its own. */
  function SetKeyCommandCorrected(arg: Option<string>, entered: string, validation: Validation, env: Option<string>)
    : (r: Option<string>)
    ensures validation.KeyRejected? <==> r.None?
    ensures validation.KeyAccepted? && env.None? ==> r == Some(KeyLine(arg.GetOr(Strip(entered))))
    ensures validation.KeyAccepted? && env.Some? ==> r == Some(SetKeyText(env.value, arg.GetOr(Strip(entered))))
  {
    var key := if arg.None? then Strip(entered) else arg.value;
    match validation
    case KeyRejected(_) => None
    case KeyAccepted =>
      if env.None? then
        SetKeyTextOfEmpty(key);
        Some(SetKeyText("", key))
      else
        Some(SetKeyText(env.value, key))
  }

  /** The two commands differ only on a file whose last line has no newline. */
  lemma CommandsAgreeOnTerminatedFiles(arg: Option<string>, entered: string, validation: Validation,
                                       env: Option<string>)
    requires env.Some? ==> |env.value| == 0 || EndsWithNewline(env.value)
    ensures SetKeyCommand(arg, entered, validation, env) == SetKeyCommandCorrected(arg, entered, validation, env)
  {
    if env.Some? {
      SetKeyTextMatchesAsWritten(env.value, arg.GetOr(Strip(entered)));
    }
  }
}

/** The handful of Python string and list primitives the program relies on, with Python's semantics. */
module PyText {

  // ---------------------------------------------------------------------------
  // str.strip()
  // ---------------------------------------------------------------------------

  /** The characters `str.isspace()` accepts, which is what `str.strip()` removes. */
  predicate IsSpace(c: char) {
    || ('\t' <= c <= '\r')
    || ('\U{1C}' <= c <= '\U{1F}')
    || c == ' '
    || c == '\U{85}'
    || c == '\U{A0}'
    || c == '\U{1680}'
    || ('\U{2000}' <= c <= '\U{200A}')
    || c == '\U{2028}'
    || c == '\U{2029}'
    || c == '\U{202F}'
    || c == '\U{205F}'
    || c == '\U{3000}'
  }

  /** Length of the whitespace run that starts `s`. */
  function LeadingSpaces(s: string): (n: nat)
    ensures n <= |s|
    ensures forall k :: 0 <= k < n ==> IsSpace(s[k])
    ensures n < |s| ==> !IsSpace(s[n])
  {
    if |s| == 0 || !IsSpace(s[0]) then 0 else 1 + LeadingSpaces(s[1..])
  }

  /** Length of the whitespace run that ends `s`. */
  function TrailingSpaces(s: string): (n: nat)
    ensures n <= |s|
    ensures forall k :: |s| - n <= k < |s| ==> IsSpace(s[k])
    ensures n < |s| ==> !IsSpace(s[|s| - 1 - n])
  {
    if |s| == 0 || !IsSpace(s[|s| - 1]) then 0 else 1 + TrailingSpaces(s[..|s| - 1])
  }

  /** Python's `s.strip()`: `s` without its leading and trailing whitespace. What is removed is
      whitespace only, and what remains neither starts nor ends with whitespace. */
  function Strip(s: string): (r: string)
    ensures |r| == 0 || (!IsSpace(r[0]) && !IsSpace(r[|r| - 1]))
    ensures var i := LeadingSpaces(s); i + |r| <= |s| && r == s[i..i + |r|]
    ensures forall k :: LeadingSpaces(s) + |r| <= k < |s| ==> IsSpace(s[k])
  {
    var i := LeadingSpaces(s);
    if i == |s| then
      ""
    else
      var t := TrailingSpaces(s);
      assert !IsSpace(s[i]);
      s[i..|s| - t]
  }

  lemma {:induction false} StripIdempotent(s: string)
    ensures Strip(Strip(s)) == Strip(s)
  {
    var r := Strip(s);
    if |r| > 0 {
      assert LeadingSpaces(r) == 0;
      assert TrailingSpaces(r) == 0;
      assert r[0..|r| - 0] == r;
    }
  }

  // ---------------------------------------------------------------------------
  // xs[-k:]
  // ---------------------------------------------------------------------------

  function Min(a: int, b: int): int { if a <= b then a else b }

  function Max(a: int, b: int): int { if a >= b then a else b }

  /** The start index Python uses for `xs[start:]` on a list of length `n`. */
  function SliceStart(n: nat, start: int): (i: nat)
    ensures i <= n
  {
    if start < 0 then Max(start + n, 0) else Min(start, n)
  }

  /** Python's `xs[-k:]`: the last `k` elements when `k >= 1`, but the WHOLE list when `k == 0`
      (because `-0 == 0`), and all but the first `-k` elements when `k < 0`. */
  function Last<T>(xs: seq<T>, k: int): (r: seq<T>)
    ensures |r| <= |xs| && xs == xs[..|xs| - |r|] + r
    ensures k >= 1 ==> |r| == Min(k, |xs|)
    ensures k == 0 ==> r == xs
    ensures k < 0 ==> |r| == Max(|xs| + k, 0)
  {
    var i := SliceStart(|xs|, -k);
    assert xs == xs[..i] + xs[i..];
    xs[i..]
  }

  /** For a positive `k`, `xs[-k:]` keeps the last `min(k, |xs|)` elements in their original order. */
  lemma LastKeepsOrder<T>(xs: seq<T>, k: int)
    requires k >= 1
    ensures var r := Last(xs, k);
              forall j :: 0 <= j < |r| ==> r[j] == xs[|xs| - Min(k, |xs|) + j]
  {
    var r := Last(xs, k);
    forall j | 0 <= j < |r|
      ensures r[j] == xs[|xs| - Min(k, |xs|) + j]
    {
      assert xs == xs[..|xs| - |r|] + r;
      assert xs[|xs| - |r| + j] == r[j];
    }
  }

  // ---------------------------------------------------------------------------
  // "sub" in s, "\n".join(parts)
  // ---------------------------------------------------------------------------

  /** Python's `sub in s` for strings. */
  predicate Contains(s: string, sub: string)
    decreases |s|
  {
    sub <= s || (|s| > 0 && Contains(s[1..], sub))
  }

  /** A string contains only strings no longer than itself. */
  lemma {:induction false} ContainsNoLonger(s: string, sub: string)
    requires Contains(s, sub)
    ensures |sub| <= |s|
    decreases |s|
  {
    if !(sub <= s) {
      ContainsNoLonger(s[1..], sub);
    }
  }

  /** Python's `"\n".join(parts)`. */
  function JoinLines(parts: seq<string>): string
  {
    if |parts| == 0 then ""
    else if |parts| == 1 then parts[0]
    else parts[0] + "\n" + JoinLines(parts[1..])
  }

  // ---------------------------------------------------------------------------
  // f.readlines() and f.write(line) for each line
  // ---------------------------------------------------------------------------

  /** Length of the first line of a non-empty text: up to and including the first "\n", or all of it. */
  function FirstLineLength(text: string): (n: nat)
    requires |text| > 0
    ensures 1 <= n <= |text|
    ensures forall k :: 0 <= k < n - 1 ==> text[k] != '\n'
    ensures text[n - 1] == '\n' || n == |text|
  {
    if text[0] == '\n' || |text| == 1 then 1 else 1 + FirstLineLength(text[1..])
  }

  /** Python's `f.readlines()` over the file's text: every line keeps its "\n", and a final piece
      without one is a line of its own. */
  function ReadLines(text: string): seq<string>
    decreases |text|
  {
    if |text| == 0 then []
    else
      var n := FirstLineLength(text);
      [text[..n]] + ReadLines(text[n..])
  }

  /** The text a sequence of `f.write(line)` calls leaves in the file. */
  function Concat(lines: seq<string>): string
  {
    if |lines| == 0 then "" else lines[0] + Concat(lines[1..])
  }

  /** A line exactly as `readlines` returns it from a file: non-empty, one "\n", at its end. */
  predicate IsLine(l: string) {
    && |l| > 0
    && l[|l| - 1] == '\n'
    && forall k :: 0 <= k < |l| - 1 ==> l[k] != '\n'
  }

  predicate EndsWithNewline(s: string) {
    |s| > 0 && s[|s| - 1] == '\n'
  }

  /** Reading a text and writing its lines back gives the text again. */
  lemma {:induction false} ConcatReadLines(text: string)
    ensures Concat(ReadLines(text)) == text
    decreases |text|
  {
    if |text| > 0 {
      var n := FirstLineLength(text);
      var ls := ReadLines(text);
      assert ls == [text[..n]] + ReadLines(text[n..]);
      assert ls[0] == text[..n] && ls[1..] == ReadLines(text[n..]);
      ConcatReadLines(text[n..]);
      assert Concat(ls) == ls[0] + Concat(ls[1..]);
      assert text == text[..n] + text[n..];
    }
  }

  /** Writing well-formed lines and reading them back gives the same lines. */
  lemma {:induction false} ReadLinesConcat(lines: seq<string>)
    requires forall i :: 0 <= i < |lines| ==> IsLine(lines[i])
    ensures ReadLines(Concat(lines)) == lines
  {
    if |lines| > 0 {
      var l := lines[0];
      var text := Concat(lines);
      assert text == l + Concat(lines[1..]);
      assert text[..|l|] == l;
      FirstLineOfLine(l, Concat(lines[1..]));
      assert text[|l|..] == Concat(lines[1..]);
      ReadLinesConcat(lines[1..]);
    }
  }

  lemma FirstLineOfLine(l: string, rest: string)
    requires IsLine(l)
    ensures FirstLineLength(l + rest) == |l|
  {
    var n := FirstLineLength(l + rest);
    assert (l + rest)[|l| - 1] == '\n';
    if n < |l| {
      assert (l + rest)[n - 1] == l[n - 1];
    }
  }

  /** When the text is empty or ends in "\n", every line `readlines` returns is terminated. */
  lemma {:induction false} ReadLinesTerminated(text: string)
    requires |text| == 0 || EndsWithNewline(text)
    ensures forall i :: 0 <= i < |ReadLines(text)| ==> IsLine(ReadLines(text)[i])
    decreases |text|
  {
    if |text| > 0 {
      var n := FirstLineLength(text);
      var rest := text[n..];
      if n == |text| {
        assert text[..n] == text;
        assert rest == [];
      } else {
        assert rest[|rest| - 1] == text[|text| - 1];
      }
      ReadLinesTerminated(rest);
      assert IsLine(text[..n]);
    }
  }
}

/** `render_header`: a left and a right label separated by a run of spaces, laid out against
    `MAX_WIDTH`. Only the plain text is modelled; the styles do not change it. */
module Header {

  const MaxWidth: int := 100

  function Spaces(n: nat): (s: string)
    ensures |s| == n
    ensures forall k :: 0 <= k < n ==> s[k] == ' '
  {
    if n == 0 then "" else " " + Spaces(n - 1)
  }

  /** `max(MAX_WIDTH - len(left) - len(right) - 2, 1)`. */
  function SpacerWidth(left: string, right: string): nat {
    var space := MaxWidth - |left| - |right| - 2;
    if space >= 1 then space else 1
  }

  /** The plain text of the header: `left`, then the spacer, then `right`, never truncated. */
  function RenderHeader(left: string, right: string): (plain: string)
    ensures left <= plain
    ensures |plain| >= |left| + |right| + 1 && plain[|plain| - |right|..] == right
    ensures forall k :: |left| <= k < |plain| - |right| ==> plain[k] == ' '
    ensures |left| + |right| <= MaxWidth - 3 ==> |plain| == MaxWidth - 2
    ensures |left| + |right| > MaxWidth - 3 ==> |plain| == |left| + |right| + 1
  {
    var plain := left + Spaces(SpacerWidth(left, right)) + right;
    assert plain[|plain| - |right|..] == right;
    plain
  }

  /** The header fits in `MAX_WIDTH` exactly when the two labels together are at most 99 long. */
  lemma FitsIff(left: string, right: string)
    ensures |RenderHeader(left, right)| <= MaxWidth <==> |left| + |right| <= MaxWidth - 1
  {
  }
}

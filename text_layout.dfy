/**
 * The layout half of `buildTextTargets`: the phrase is split into lines at '\n' and the
 * font size is chosen by stepping down from 170px in steps of 6px until the text fits
 * 86% of the 1400px canvas width and (for the multi-line pass) 70% of its 360px height.
 * The text measurer of the canvas is a parameter: `width(s, px)` is the width of `s`
 * drawn in the bold font of `px` pixels.
 */
module TextLayout {
  import opened Numerics

  const CanvasWidth: nat := 1400
  const CanvasHeight: nat := 360
  /** `canvas.width * 0.86`. */
  const MaxTextWidth: real := 1204.0
  /** `canvas.height * 0.70`. */
  const MaxTextHeight: real := 252.0
  const LargestFont: int := 170
  const SmallestFont: int := 90
  const FontStep: int := 6
  /** Line height as a multiple of the font size: `1 + lineGap` with `lineGap = 0.12`. */
  const LineSpacing: real := 1.12

  /** `ctx.measureText(s).width` with the font set to `px` pixels. */
  type Measure = (string, int) -> real

  /** The font sizes the fit loops try: `top`, `top - 6`, `top - 12`, ... */
  predicate OnLadder(px: int, top: int)
  {
    px <= top && (top - px) % FontStep == 0
  }

  /** `String(text).split('\n')`. */
  function SplitLines(s: string): (lines: seq<string>)
    ensures |lines| >= 1
    decreases |s|
  {
    if |s| == 0 then [""]
    else
      var rest := SplitLines(s[1..]);
      if s[0] == '\n' then [""] + rest
      else [[s[0]] + rest[0]] + rest[1..]
  }

  /** The inverse of splitting: the lines joined with '\n' between them. */
  function JoinLines(lines: seq<string>): string
  {
    if |lines| == 0 then ""
    else if |lines| == 1 then lines[0]
    else lines[0] + "\n" + JoinLines(lines[1..])
  }

  /** Joining the lines of a split gives back the original text. */
  lemma {:induction false} JoinSplit(s: string)
    ensures JoinLines(SplitLines(s)) == s
    decreases |s|
  {
    if |s| > 0 {
      var rest := SplitLines(s[1..]);
      JoinSplit(s[1..]);
      if s[0] == '\n' {
        assert ([""] + rest)[1..] == rest;
        assert s == "\n" + s[1..];
      } else if |rest| == 1 {
        assert s == [s[0]] + s[1..];
      } else {
        var lines := [[s[0]] + rest[0]] + rest[1..];
        assert lines[1..] == rest[1..];
        assert s == [s[0]] + s[1..];
      }
    }
  }

  /** No line of a split holds a '\n'. */
  lemma {:induction false} SplitLinesHaveNoBreak(s: string)
    ensures forall i, j :: 0 <= i < |SplitLines(s)| && 0 <= j < |SplitLines(s)[i]| ==> SplitLines(s)[i][j] != '\n'
    decreases |s|
  {
    if |s| > 0 {
      SplitLinesHaveNoBreak(s[1..]);
    }
  }

  /** The number of '\n' characters in `s`. */
  function Breaks(s: string): nat
  {
    if |s| == 0 then 0 else (if s[0] == '\n' then 1 else 0) + Breaks(s[1..])
  }

  /** A text with k line breaks splits into k + 1 lines. */
  lemma {:induction false} SplitLinesCount(s: string)
    ensures |SplitLines(s)| == Breaks(s) + 1
    decreases |s|
  {
    if |s| > 0 {
      SplitLinesCount(s[1..]);
    }
  }

  /** The first fit loop: the largest size on the ladder from 170 whose width fits, or 86
      when even 90px is too wide. */
  method FitFont(text: string, width: Measure) returns (fontPx: int)
    ensures OnLadder(fontPx, LargestFont) && fontPx >= SmallestFont - FontStep
    ensures fontPx >= SmallestFont ==> width(text, fontPx) <= MaxTextWidth
    ensures forall p :: fontPx < p && OnLadder(p, LargestFont) ==> width(text, p) > MaxTextWidth
  {
    fontPx := LargestFont;
    while fontPx >= SmallestFont
      invariant OnLadder(fontPx, LargestFont) && fontPx >= SmallestFont - FontStep
      invariant forall p :: fontPx < p && OnLadder(p, LargestFont) ==> width(text, p) > MaxTextWidth
    {
      if width(text, fontPx) <= MaxTextWidth {
        break;
      }
      fontPx := fontPx - FontStep;
    }
  }

  /** The widest of the lines at `px`, or 0 when there are none. */
  function WidestLine(lines: seq<string>, width: Measure, px: int): (w: real)
    ensures 0.0 <= w
    ensures forall i :: 0 <= i < |lines| ==> width(lines[i], px) <= w
    ensures w == 0.0 || exists i :: 0 <= i < |lines| && w == width(lines[i], px)
    decreases |lines|
  {
    if |lines| == 0 then 0.0
    else
      var init := lines[..|lines| - 1];
      var w := WidestLine(init, width, px);
      assert forall i :: 0 <= i < |init| ==> init[i] == lines[i];
      Max(w, width(lines[|lines| - 1], px))
  }

  /** The inner loop of the second fit pass: the running maximum of the line widths. */
  method MaxLineWidth(lines: seq<string>, width: Measure, px: int) returns (maxW: real)
    ensures maxW == WidestLine(lines, width, px)
  {
    maxW := 0.0;
    for i := 0 to |lines|
      invariant maxW == WidestLine(lines[..i], width, px)
    {
      var w := width(lines[i], px);
      assert lines[..i + 1][..i] == lines[..i];
      if w > maxW {
        maxW := w;
      }
    }
    assert lines[..|lines|] == lines;
  }

  function LineHeight(px: int): real
  {
    px as real * LineSpacing
  }

  /** The block of lines fits the canvas: every line within the width limit and the total
      height within the height limit. */
  predicate LinesFit(lines: seq<string>, width: Measure, px: int)
  {
    WidestLine(lines, width, px) <= MaxTextWidth && |lines| as real * LineHeight(px) <= MaxTextHeight
  }

  /** At 90px or more only one or two lines can fit: three lines need 3 * 100.8 > 252. */
  lemma AtMostTwoLinesFit(lines: seq<string>, width: Measure, px: int)
    requires px >= SmallestFont && LinesFit(lines, width, px)
    ensures |lines| <= 2
  {
    assert LineHeight(px) >= 100.8;
    assert |lines| as real * LineHeight(px) >= |lines| as real * 100.8;
  }

  /** The second fit loop, starting from the size the first one chose: the largest size on
      the ladder from `start` at which all lines fit, or the first size below 90. */
  method FitLines(lines: seq<string>, width: Measure, start: int) returns (fontPx: int)
    ensures OnLadder(fontPx, start)
    ensures fontPx >= SmallestFont ==> LinesFit(lines, width, fontPx)
    ensures fontPx < SmallestFont ==> fontPx == start || fontPx >= SmallestFont - FontStep
    ensures forall p :: fontPx < p && OnLadder(p, start) ==> !LinesFit(lines, width, p)
  {
    fontPx := start;
    while fontPx >= SmallestFont
      invariant OnLadder(fontPx, start)
      invariant fontPx < SmallestFont ==> fontPx == start || fontPx >= SmallestFont - FontStep
      invariant forall p :: fontPx < p && OnLadder(p, start) ==> !LinesFit(lines, width, p)
    {
      var maxW := MaxLineWidth(lines, width, fontPx);
      var totalH := |lines| as real * LineHeight(fontPx);
      if maxW <= MaxTextWidth && totalH <= MaxTextHeight {
        break;
      }
      fontPx := fontPx - FontStep;
    }
  }

  /** The vertical centres of the lines drawn with `textBaseline = 'middle'`. */
  function LineCentres(n: nat, lineH: real): (ys: seq<real>)
    ensures |ys| == n
    ensures n >= 1 ==> ys[0] + ys[n - 1] == CanvasHeight as real
    ensures forall li :: 0 <= li < n - 1 ==> ys[li + 1] - ys[li] == lineH
  {
    var startY := CanvasHeight as real / 2.0 - ((n - 1) as real * lineH) / 2.0;
    seq(n, li => startY + li as real * lineH)
  }

  /** 86px, the first size of the ladder from 170 below the smallest accepted size. */
  const FallbackFont: int := 86

  /** A size of the ladder from 170 that lies below 90 but not below 84 is 86. */
  lemma BelowSmallestIsFallback(px: int)
    requires OnLadder(px, LargestFont) && SmallestFont - FontStep <= px < SmallestFont
    ensures px == FallbackFont
  {
    assert px == 84 || px == 85 || px == 86 || px == 87 || px == 88 || px == 89;
  }

  /** Both fit passes: the lines of the text, the size `single` the first pass chose and
      the size `fontPx` they are drawn at. */
  method FitText(text: string, width: Measure) returns (lines: seq<string>, single: int, fontPx: int, lineH: real)
    ensures JoinLines(lines) == text
    ensures forall i, j :: 0 <= i < |lines| && 0 <= j < |lines[i]| ==> lines[i][j] != '\n'
    ensures OnLadder(single, LargestFont) && single >= SmallestFont - FontStep
    ensures forall p :: single < p && OnLadder(p, LargestFont) ==> width(text, p) > MaxTextWidth
    ensures OnLadder(fontPx, single) && OnLadder(fontPx, LargestFont)
    ensures forall p :: fontPx < p && OnLadder(p, single) ==> !LinesFit(lines, width, p)
    ensures fontPx >= SmallestFont ==> LinesFit(lines, width, fontPx)
    ensures fontPx < SmallestFont ==> fontPx == FallbackFont
    ensures |lines| >= 3 ==> fontPx == FallbackFont
    ensures lineH == LineHeight(fontPx)
  {
    single := FitFont(text, width);
    lines := SplitLines(text);
    JoinSplit(text);
    SplitLinesHaveNoBreak(text);
    fontPx := FitLines(lines, width, single);
    assert OnLadder(fontPx, LargestFont) by {
      assert LargestFont - fontPx == (LargestFont - single) + (single - fontPx);
    }
    if fontPx >= SmallestFont {
      AtMostTwoLinesFit(lines, width, fontPx);
    } else {
      BelowSmallestIsFallback(fontPx);
    }
    lineH := LineHeight(fontPx);
  }
}

/**
  The layout arithmetic of the composed image, in CSS pixels of a viewport
  `w` by `h`: font sizes, the vertically centred stack of heading lines, and
  the offsets of the eyebrow label, the divider and the tagline. JavaScript
  numbers are modelled as reals, so the identities below hold exactly.
 */
module Layout {

  function Min(a: real, b: real): real {
    if a <= b then a else b
  }

  function Max(a: real, b: real): real {
    if a >= b then a else b
  }

  /** `Math.min(w * 0.13, h * 0.19)`: the heading font is bounded by both the width and the height. */
  function HeadingFontSize(w: nat, h: nat): (size: real)
    ensures 0.0 <= size
    ensures size <= 0.13 * w as real && size <= 0.19 * h as real
    ensures size == 0.13 * w as real || size == 0.19 * h as real
  {
    Min(0.13 * w as real, 0.19 * h as real)
  }

  /** `Math.max(11, w * 0.009)`: the eyebrow label is never smaller than 11 pixels. */
  function SubFontSize(w: nat): (size: real)
    ensures size >= 11.0 && size >= 0.009 * w as real
    ensures size == 11.0 || size == 0.009 * w as real
  {
    Max(11.0, 0.009 * w as real)
  }

  /** `Math.max(11, w * 0.01)`: the tagline is never smaller than 11 pixels. */
  function TagFontSize(w: nat): (size: real)
    ensures size >= 11.0 && size >= 0.01 * w as real
    ensures size == 11.0 || size == 0.01 * w as real
  {
    Max(11.0, 0.01 * w as real)
  }

  /** Heading line pitch, 1.08 times the heading font size. */
  function LineHeight(w: nat, h: nat): (lh: real)
    ensures lh >= 0.0
  {
    HeadingFontSize(w, h) * 1.08
  }

  /** Horizontal centre of every text item and of the divider. */
  function CentreX(w: nat): real {
    w as real / 2.0
  }

  /** Centre of the first of `n` heading lines. */
  function StartY(w: nat, h: nat, n: nat): real {
    h as real / 2.0 - (n as real * LineHeight(w, h)) / 2.0 + LineHeight(w, h) / 2.0
  }

  /** Centre of heading line `i` of `n`. */
  function LineY(w: nat, h: nat, n: nat, i: nat): real {
    StartY(w, h, n) + i as real * LineHeight(w, h)
  }

  /** Vertical position of the eyebrow label: 0.095 w above the middle. */
  function SubTextY(w: nat, h: nat): real {
    h as real / 2.0 - w as real * 0.095
  }

  /** Top edge of the divider, 0.018 w past where a line after the last heading line would be centred. */
  function DividerY(w: nat, h: nat, n: nat): real {
    StartY(w, h, n) + n as real * LineHeight(w, h) + w as real * 0.018
  }

  /** Vertical position of the tagline, 0.025 w below the divider. */
  function TaglineY(w: nat, h: nat, n: nat): real {
    DividerY(w, h, n) + w as real * 0.025
  }

  // Divider geometry: 60 pixels wide, half a pixel tall.
  const DividerHalfWidth: real := 30.0
  const DividerHeight: real := 0.5

  /** Consecutive heading lines are exactly one line height apart. */
  lemma LinesEvenlySpaced(w: nat, h: nat, n: nat, i: nat)
    ensures LineY(w, h, n, i + 1) - LineY(w, h, n, i) == LineHeight(w, h)
  {
  }

  /** The first and last heading lines are mirror images about the vertical middle. */
  lemma LinesSymmetricAboutMiddle(w: nat, h: nat, n: nat)
    requires n > 0
    ensures LineY(w, h, n, 0) + LineY(w, h, n, n - 1) == h as real
  {
    var lh := LineHeight(w, h);
    calc {
      LineY(w, h, n, 0) + LineY(w, h, n, n - 1);
      2.0 * StartY(w, h, n) + (n - 1) as real * lh;
      h as real - n as real * lh + lh + n as real * lh - lh;
    }
  }

  /** Line `i` and line `n - 1 - i` are mirror images about the vertical middle. */
  lemma LinePairsSymmetric(w: nat, h: nat, n: nat, i: nat)
    requires i < n
    ensures LineY(w, h, n, i) + LineY(w, h, n, n - 1 - i) == h as real
  {
    var lh := LineHeight(w, h);
    calc {
      LineY(w, h, n, i) + LineY(w, h, n, n - 1 - i);
      2.0 * StartY(w, h, n) + (i as real + (n - 1 - i) as real) * lh;
      2.0 * StartY(w, h, n) + (n - 1) as real * lh;
      h as real - n as real * lh + lh + n as real * lh - lh;
    }
  }

  /** The divider lies below the centre of the last heading line, by one line height plus 0.018 w. */
  lemma DividerBelowLastLine(w: nat, h: nat, n: nat)
    requires n > 0
    ensures DividerY(w, h, n) - LineY(w, h, n, n - 1) == LineHeight(w, h) + 0.018 * w as real
    ensures w > 0 ==> DividerY(w, h, n) > LineY(w, h, n, n - 1)
  {
    var lh := LineHeight(w, h);
    assert n as real * lh - (n - 1) as real * lh == lh;
  }

  /**
    The divider's offset from the bottom edge of the heading block
    (`h/2 + n*lineHeight/2`): half a line height plus 0.018 w.
   */
  lemma DividerBelowBlock(w: nat, h: nat, n: nat)
    ensures DividerY(w, h, n) == h as real / 2.0 + n as real * LineHeight(w, h) / 2.0 + LineHeight(w, h) / 2.0 + 0.018 * w as real
  {
  }

  /** With no heading lines the divider sits half a line height plus 0.018 w below the middle. */
  lemma DividerWithoutLines(w: nat, h: nat)
    ensures DividerY(w, h, 0) == h as real / 2.0 + LineHeight(w, h) / 2.0 + 0.018 * w as real
  {
  }

  /** The tagline sits 0.025 w below the divider, so strictly below it on a non-empty viewport. */
  lemma TaglineBelowDivider(w: nat, h: nat, n: nat)
    ensures TaglineY(w, h, n) - DividerY(w, h, n) == 0.025 * w as real
    ensures w > 0 ==> TaglineY(w, h, n) > DividerY(w, h, n)
  {
  }
}

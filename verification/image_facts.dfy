/**
  Properties of the image `generateTextImage` composes: its size in device
  pixels, how many drawings it holds and in which order, where each text
  item and the divider sit, with which opacity and compositing each is
  drawn, and which drawings depend on the text colour.
 */
module ImageFacts {
  import opened Js
  import opened Canvas
  import opened Layout
  import opened Composer
  import opened ComposerLemmas

  /** 1 when the eyebrow label is drawn (`subText` truthy), else 0. */
  function EyebrowCount(cfg: Config): nat {
    if StringTruthy(cfg.subText) then 1 else 0
  }

  /** 1 when the tagline is drawn (`tagline` truthy), else 0. */
  function TaglineCount(cfg: Config): nat {
    if StringTruthy(cfg.tagline) then 1 else 0
  }

  /** The number of text drawings set in font `f`. */
  function TextsInFont(ds: seq<Draw>, f: Font): nat {
    if ds == [] then 0
    else (if ds[0].shape.Text? && ds[0].state.font == f then 1 else 0) + TextsInFont(ds[1..], f)
  }

  lemma {:induction false} TextsInFontAppend(a: seq<Draw>, b: seq<Draw>, f: Font)
    ensures TextsInFont(a + b, f) == TextsInFont(a, f) + TextsInFont(b, f)
    decreases |a|
  {
    if a == [] {
      assert a + b == b;
    } else {
      assert (a + b)[0] == a[0];
      assert (a + b)[1..] == a[1..] + b;
      TextsInFontAppend(a[1..], b, f);
    }
  }

  /** No drawing of `ds` is a text set in `f`. */
  lemma {:induction false} NoTextsInFont(ds: seq<Draw>, f: Font)
    requires forall i :: 0 <= i < |ds| ==> !ds[i].shape.Text? || ds[i].state.font != f
    ensures TextsInFont(ds, f) == 0
    decreases |ds|
  {
    if ds != [] {
      NoTextsInFont(ds[1..], f);
    }
  }

  /** Every drawing of `ds` is a text set in `f`. */
  lemma {:induction false} AllTextsInFont(ds: seq<Draw>, f: Font)
    requires forall i :: 0 <= i < |ds| ==> ds[i].shape.Text? && ds[i].state.font == f
    ensures TextsInFont(ds, f) == |ds|
    decreases |ds|
  {
    if ds != [] {
      AllTextsInFont(ds[1..], f);
    }
  }

  /** The drawings of a composed image are the reference layers. */
  lemma ImageIsLayers(cfg: Config, env: Env)
    requires env.contextAvailable
    ensures GenerateTextImage(cfg, env).Some?
    ensures GenerateTextImage(cfg, env).value.draws == Layers(cfg, env)
  {
    ScriptDrawsLayers(cfg, env);
  }

  /**
    Where each part of the image sits in the drawing sequence: three backdrop
    fills, the optional eyebrow label, the heading lines, the divider, the
    optional tagline.
   */
  lemma LayersIndex(cfg: Config, env: Env)
    ensures var ds, w, h, dpr := Layers(cfg, env), env.innerWidth, env.innerHeight, Dpr(env);
      var s, n := EyebrowCount(cfg), Lines(cfg);
      && |ds| == 4 + s + n + TaglineCount(cfg)
      && ds[..3] == BackdropLayers(cfg, w, h, dpr)
      && ds[3..3 + s] == EyebrowLayers(cfg, w, h, dpr)
      && ds[3 + s..3 + s + n] == HeadingLayers(cfg, w, h, dpr)
      && ds[3 + s + n] == DividerLayer(cfg, w, h, dpr)
      && ds[4 + s + n..] == TaglineLayers(cfg, w, h, dpr)
  {
    var w, h, dpr := env.innerWidth, env.innerHeight, Dpr(env);
    var l0, l1, l3 := BackdropLayers(cfg, w, h, dpr), EyebrowLayers(cfg, w, h, dpr), HeadingLayers(cfg, w, h, dpr);
    var ds := Layers(cfg, env);
    var s, n := EyebrowCount(cfg), Lines(cfg);
    assert ds == l0 + l1 + l3 + [DividerLayer(cfg, w, h, dpr)] + TaglineLayers(cfg, w, h, dpr);
    assert |l1| == s && |l3| == n;
    assert ds[..3] == l0;
    assert ds[3..3 + s] == l1;
    assert ds[3 + s..3 + s + n] == l3;
  }

  /**
    The offscreen canvas is `w*dpr` by `h*dpr` device pixels, `dpr` never
    being 0: each side of the image is the scaled length truncated while
    that is below 2^31, and the canvas default (300 wide, 150 high) when it
    lies from 2^31 to 2^32.
   */
  lemma ImageDimensions(cfg: Config, env: Env)
    requires env.contextAvailable
    ensures GenerateTextImage(cfg, env).value.width == CanvasWidth(env)
    ensures GenerateTextImage(cfg, env).value.height == CanvasHeight(env)
    ensures Dpr(env) != 0.0
    ensures 0.0 <= env.innerWidth as real * Dpr(env) < MaxReflected as real + 1.0 ==>
      CanvasWidth(env) as real <= env.innerWidth as real * Dpr(env) < CanvasWidth(env) as real + 1.0
    ensures MaxReflected as real + 1.0 <= env.innerWidth as real * Dpr(env) < TwoTo32 as real ==>
      CanvasWidth(env) == DefaultCanvasWidth
    ensures 0.0 <= env.innerHeight as real * Dpr(env) < MaxReflected as real + 1.0 ==>
      CanvasHeight(env) as real <= env.innerHeight as real * Dpr(env) < CanvasHeight(env) as real + 1.0
    ensures MaxReflected as real + 1.0 <= env.innerHeight as real * Dpr(env) < TwoTo32 as real ==>
      CanvasHeight(env) == DefaultCanvasHeight
  {
    CanvasSides(env);
  }

  /**
    The returned data URL carries the composed image exactly when the canvas
    has pixels on both sides; otherwise it is `"data:,"` and every drawing is
    lost.
   */
  lemma ImageUrl(cfg: Config, env: Env)
    requires env.contextAvailable
    ensures TextImageUrl(cfg, env).value.PngUrl? <==> CanvasWidth(env) > 0 && CanvasHeight(env) > 0
    ensures TextImageUrl(cfg, env).value.PngUrl? ==>
      TextImageUrl(cfg, env).value.image == GenerateTextImage(cfg, env).value
  {
    ImageDimensions(cfg, env);
  }

  /**
    A viewport side that scales to less than one device pixel (a zero
    `innerWidth` or `innerHeight`, or `w*dpr < 1`) leaves the canvas without
    pixels, so the component returns `"data:,"` although it drew at least
    four drawings.
   */
  lemma SubPixelViewportGivesEmptyUrl(cfg: Config, env: Env)
    requires env.contextAvailable
    requires 0.0 <= env.innerWidth as real * Dpr(env) < 1.0 || 0.0 <= env.innerHeight as real * Dpr(env) < 1.0
    ensures TextImageUrl(cfg, env) == Some(EmptyUrl)
    ensures |GenerateTextImage(cfg, env).value.draws| >= 4
  {
    CanvasSides(env);
    DrawCount(cfg, env);
  }

  /**
    At a whole-number ratio `k` the canvas is exactly `w*k` by `h*k` while
    each product is at most 2^31 - 1, and a side falls back to its default
    when its product is from 2^31 to 2^32 - 1.
   */
  lemma ImageDimensionsWhole(cfg: Config, env: Env, k: nat)
    requires env.contextAvailable && Dpr(env) == k as real
    ensures var img, w, h := GenerateTextImage(cfg, env).value, env.innerWidth, env.innerHeight;
      && (w * k <= MaxReflected ==> img.width == w * k)
      && (MaxReflected < w * k < TwoTo32 ==> img.width == DefaultCanvasWidth)
      && (h * k <= MaxReflected ==> img.height == h * k)
      && (MaxReflected < h * k < TwoTo32 ==> img.height == DefaultCanvasHeight)
  {
    var w, h := env.innerWidth, env.innerHeight;
    if w * k <= MaxReflected { DeviceSideExact(w, k, DefaultCanvasWidth); }
    if MaxReflected < w * k < TwoTo32 { DeviceSideTooLarge(w, k, DefaultCanvasWidth); }
    if h * k <= MaxReflected { DeviceSideExact(h, k, DefaultCanvasHeight); }
    if MaxReflected < h * k < TwoTo32 { DeviceSideTooLarge(h, k, DefaultCanvasHeight); }
  }

  /** The drawing count: three backdrop fills, the divider, one per heading line, and the optional label and tagline. */
  lemma DrawCount(cfg: Config, env: Env)
    requires env.contextAvailable
    ensures |GenerateTextImage(cfg, env).value.draws| == 4 + EyebrowCount(cfg) + Lines(cfg) + TaglineCount(cfg)
  {
    ImageIsLayers(cfg, env);
    LayersIndex(cfg, env);
  }

  /**
    The backdrop comes first: the background plate over the whole surface,
    then the cool wash centred at (0.5 w, 0.1 h) with radius 0.6 w and the
    warm wash centred at (0.5 w, 0.95 h) with radius 0.5 w, both multiplied.
   */
  lemma BackdropFirst(cfg: Config, env: Env)
    requires env.contextAvailable
    ensures var ds, w, h := GenerateTextImage(cfg, env).value.draws, env.innerWidth as real, env.innerHeight as real;
      && |ds| >= 3
      && ds[0].shape == Rect(0.0, 0.0, w, h) && ds[1].shape == Rect(0.0, 0.0, w, h) && ds[2].shape == Rect(0.0, 0.0, w, h)
      && ds[0].state.fill == Solid(cfg.backgroundColor)
      && ds[0].state.composite == SourceOver && ds[0].state.alpha == 1.0
      && ds[1].state.composite == Multiply && ds[2].state.composite == Multiply
      && ds[1].state.fill.Radial? && ds[2].state.fill.Radial?
      && ds[1].state.fill.x0 == ds[1].state.fill.x1 == 0.5 * w && ds[1].state.fill.y0 == ds[1].state.fill.y1 == 0.1 * h
      && ds[1].state.fill.r0 == 0.0 && ds[1].state.fill.r1 == 0.6 * w
      && ds[2].state.fill.x0 == ds[2].state.fill.x1 == 0.5 * w && ds[2].state.fill.y0 == ds[2].state.fill.y1 == 0.95 * h
      && ds[2].state.fill.r0 == 0.0 && ds[2].state.fill.r1 == 0.5 * w
  {
    ImageIsLayers(cfg, env);
    LayersIndex(cfg, env);
  }

  /**
    Everything after the backdrop is composited source-over, no text is
    drawn before the compositing is reset, and every drawing is made under
    the device-pixel scale.
   */
  lemma ForegroundSourceOver(cfg: Config, env: Env)
    requires env.contextAvailable
    ensures var ds := GenerateTextImage(cfg, env).value.draws;
      && (forall i :: 3 <= i < |ds| ==> ds[i].state.composite == SourceOver)
      && (forall i :: 0 <= i < |ds| && ds[i].shape.Text? ==> 3 <= i)
      && (forall i :: 0 <= i < |ds| ==> ds[i].state.scale == Dpr(env))
  {
    ImageIsLayers(cfg, env);
    LayersIndex(cfg, env);
    var ds := Layers(cfg, env);
    var s, n := EyebrowCount(cfg), Lines(cfg);
    forall i | 0 <= i < |ds|
      ensures 3 <= i ==> ds[i].state.composite == SourceOver
      ensures ds[i].shape.Text? ==> 3 <= i
      ensures ds[i].state.scale == Dpr(env)
    {
      if i < 3 {
        assert ds[i] == ds[..3][i];
      } else if i < 3 + s {
        assert ds[i] == ds[3..3 + s][i - 3];
      } else if i < 3 + s + n {
        assert ds[i] == ds[3 + s..3 + s + n][i - 3 - s];
      } else if i > 3 + s + n {
        assert ds[i] == ds[4 + s + n..][i - 4 - s - n];
      }
    }
  }

  /**
    The eyebrow label is drawn exactly when `subText` is truthy: then it is
    the first drawing after the backdrop, upper-cased, centred at
    (w/2, h/2 - 0.095 w), at 35% opacity on the alphabetic baseline, in a
    font of at least 11 pixels; and only it is drawn at 35% opacity.
   */
  lemma EyebrowLabel(cfg: Config, env: Env)
    requires env.contextAvailable
    ensures var ds, w, h := GenerateTextImage(cfg, env).value.draws, env.innerWidth as real, env.innerHeight as real;
      && (StringTruthy(cfg.subText) ==>
            && |ds| > 3
            && ds[3].shape == Text(ToUpperCase(cfg.subText.value), w / 2.0, h / 2.0 - w * 0.095)
            && ds[3].state.alpha == 0.35 && ds[3].state.fill == Solid(cfg.textColor)
            && ds[3].state.baseline == Alphabetic && ds[3].state.font.size >= 11.0)
      && ((exists i :: 0 <= i < |ds| && ds[i].state.alpha == 0.35) <==> StringTruthy(cfg.subText))
  {
    ImageIsLayers(cfg, env);
    LayersIndex(cfg, env);
    var ds := Layers(cfg, env);
    var s, n := EyebrowCount(cfg), Lines(cfg);
    if StringTruthy(cfg.subText) {
      assert ds[3] == ds[3..3 + s][0];
    } else {
      forall i | 0 <= i < |ds|
        ensures ds[i].state.alpha != 0.35
      {
        if i < 3 {
          assert ds[i] == ds[..3][i];
        } else if i < 3 + n {
          assert ds[i] == ds[3 + s..3 + s + n][i - 3 - s];
        } else if i > 3 + n {
          assert ds[i] == ds[4 + s + n..][i - 4 - s - n];
        }
      }
    }
  }

  /** Exactly one text per heading line is set in the heading font. */
  lemma HeadingTextCount(cfg: Config, env: Env)
    requires env.contextAvailable
    ensures TextsInFont(GenerateTextImage(cfg, env).value.draws, HeadingFont(env.innerWidth, env.innerHeight)) == Lines(cfg)
  {
    ImageIsLayers(cfg, env);
    var w, h, dpr := env.innerWidth, env.innerHeight, Dpr(env);
    var f := HeadingFont(w, h);
    var l0, l1, l3 := BackdropLayers(cfg, w, h, dpr), EyebrowLayers(cfg, w, h, dpr), HeadingLayers(cfg, w, h, dpr);
    var l4, l5 := [DividerLayer(cfg, w, h, dpr)], TaglineLayers(cfg, w, h, dpr);
    NoTextsInFont(l0, f);
    NoTextsInFont(l1, f);
    AllTextsInFont(l3, f);
    NoTextsInFont(l4, f);
    NoTextsInFont(l5, f);
    TextsInFontAppend(l0, l1, f);
    TextsInFontAppend(l0 + l1, l3, f);
    TextsInFontAppend(l0 + l1 + l3, l4, f);
    TextsInFontAppend(l0 + l1 + l3 + l4, l5, f);
  }

  /**
    Heading line `i` of `n` is the `i`-th drawing after the backdrop and the
    optional label: its text centred at (w/2, LineY(i)), set in the heading
    font of size `min(0.13 w, 0.19 h)`, fully opaque, source-over, in the
    text colour, on the middle baseline.
   */
  lemma HeadingLines(cfg: Config, env: Env)
    requires env.contextAvailable
    ensures var ds, w, h := GenerateTextImage(cfg, env).value.draws, env.innerWidth, env.innerHeight;
      var lines, n, s := Elements(cfg.text), Lines(cfg), EyebrowCount(cfg);
      && |ds| >= 4 + s + n
      && forall i :: 0 <= i < n ==>
           && ds[3 + s + i].shape == Text(lines[i], CentreX(w), LineY(w, h, n, i))
           && ds[3 + s + i].state.font == HeadingFont(w, h)
           && ds[3 + s + i].state.alpha == 1.0
           && ds[3 + s + i].state.composite == SourceOver
           && ds[3 + s + i].state.fill == Solid(cfg.textColor)
           && ds[3 + s + i].state.baseline == Middle
  {
    ImageIsLayers(cfg, env);
    LayersHeadingAt(cfg, env);
    HeadingLayerFacts(cfg, env.innerWidth, env.innerHeight, Dpr(env));
  }

  /** The heading lines sit in the reference layers right after the backdrop and the optional label. */
  lemma LayersHeadingAt(cfg: Config, env: Env)
    ensures |Layers(cfg, env)| >= 4 + EyebrowCount(cfg) + Lines(cfg)
    ensures forall i :: 0 <= i < Lines(cfg) ==>
      Layers(cfg, env)[3 + EyebrowCount(cfg) + i]
        == HeadingLayers(cfg, env.innerWidth, env.innerHeight, Dpr(env))[i]
  {
    LayersIndex(cfg, env);
    var ds, s, n := Layers(cfg, env), EyebrowCount(cfg), Lines(cfg);
    var l3 := ds[3 + s..3 + s + n];
    forall i | 0 <= i < n
      ensures ds[3 + s + i] == l3[i]
    {
    }
  }

  /** What each planned heading line is: its text, position and drawing state. */
  lemma HeadingLayerFacts(cfg: Config, w: nat, h: nat, dpr: real)
    ensures |HeadingLayers(cfg, w, h, dpr)| == Lines(cfg)
    ensures forall i :: 0 <= i < Lines(cfg) ==>
      && HeadingLayers(cfg, w, h, dpr)[i].shape == Text(Elements(cfg.text)[i], CentreX(w), LineY(w, h, Lines(cfg), i))
      && HeadingLayers(cfg, w, h, dpr)[i].state.font == HeadingFont(w, h)
      && HeadingLayers(cfg, w, h, dpr)[i].state.alpha == 1.0
      && HeadingLayers(cfg, w, h, dpr)[i].state.composite == SourceOver
      && HeadingLayers(cfg, w, h, dpr)[i].state.fill == Solid(cfg.textColor)
      && HeadingLayers(cfg, w, h, dpr)[i].state.baseline == Middle
  {
  }

  /**
    The divider is always drawn, right after the heading lines: a rectangle
    spanning [w/2 - 30, w/2 + 30] horizontally, 0.5 pixels tall, at
    `DividerY`, at 12% opacity in the text colour; on a non-empty viewport
    it lies below the centre of the last heading line.
   */
  lemma DividerPlaced(cfg: Config, env: Env)
    requires env.contextAvailable
    ensures var ds, w, h := GenerateTextImage(cfg, env).value.draws, env.innerWidth, env.innerHeight;
      var n, s := Lines(cfg), EyebrowCount(cfg);
      && |ds| >= 4 + s + n
      && ds[3 + s + n].shape.Rect?
      && ds[3 + s + n].shape.x == w as real / 2.0 - 30.0
      && ds[3 + s + n].shape.x + ds[3 + s + n].shape.width == w as real / 2.0 + 30.0
      && ds[3 + s + n].shape.height == 0.5
      && ds[3 + s + n].shape.y == DividerY(w, h, n)
      && ds[3 + s + n].state.alpha == 0.12
      && ds[3 + s + n].state.fill == Solid(cfg.textColor)
      && ds[3 + s + n].state.composite == SourceOver
      && (n > 0 && w > 0 ==> ds[3 + s + n].shape.y > ds[3 + s + n - 1].shape.y)
  {
    ImageIsLayers(cfg, env);
    LayersIndex(cfg, env);
    HeadingLines(cfg, env);
    var w, h, n := env.innerWidth, env.innerHeight, Lines(cfg);
    if n > 0 {
      DividerBelowLastLine(w, h, n);
    }
  }

  /**
    With no heading lines (`text` absent or empty) the image still exists,
    no heading text is drawn, and the divider sits half a line height plus
    0.018 w below the vertical middle.
   */
  lemma NoHeadingLines(cfg: Config, env: Env)
    requires env.contextAvailable
    requires cfg.text.None? || cfg.text.value == []
    ensures GenerateTextImage(cfg, env).Some?
    ensures var ds, w, h := GenerateTextImage(cfg, env).value.draws, env.innerWidth, env.innerHeight;
      var s := EyebrowCount(cfg);
      && TextsInFont(ds, HeadingFont(w, h)) == 0
      && |ds| == 4 + s + TaglineCount(cfg)
      && ds[3 + s].shape.Rect?
      && ds[3 + s].shape.y == h as real / 2.0 + LineHeight(w, h) / 2.0 + 0.018 * w as real
  {
    HeadingTextCount(cfg, env);
    DrawCount(cfg, env);
    DividerPlaced(cfg, env);
    DividerWithoutLines(env.innerWidth, env.innerHeight);
  }

  /**
    The tagline is drawn exactly when `tagline` is truthy, as the last
    drawing: centred at (w/2, dividerY + 0.025 w), at 30% opacity, in the
    text font of at least 11 pixels, below the divider on a non-empty
    viewport.
   */
  lemma TaglinePlaced(cfg: Config, env: Env)
    requires env.contextAvailable
    ensures var ds, w, h := GenerateTextImage(cfg, env).value.draws, env.innerWidth, env.innerHeight;
      var n, s := Lines(cfg), EyebrowCount(cfg);
      && (StringTruthy(cfg.tagline) <==> |ds| == 5 + s + n)
      && (StringTruthy(cfg.tagline) ==>
            && |ds| == 5 + s + n
            && ds[4 + s + n].shape == Text(cfg.tagline.value, w as real / 2.0, DividerY(w, h, n) + w as real * 0.025)
            && ds[4 + s + n].state.alpha == 0.3
            && ds[4 + s + n].state.fill == Solid(cfg.textColor)
            && ds[4 + s + n].state.font.size >= 11.0
            && ds[4 + s + n].state.font.family == TextStack
            && (w > 0 ==> ds[4 + s + n].shape.y > ds[3 + s + n].shape.y))
  {
    ImageIsLayers(cfg, env);
    LayersIndex(cfg, env);
    var ds := Layers(cfg, env);
    var s, n := EyebrowCount(cfg), Lines(cfg);
    if StringTruthy(cfg.tagline) {
      assert ds[4 + s + n] == ds[4 + s + n..][0];
      TaglineBelowDivider(env.innerWidth, env.innerHeight, n);
    }
  }

  /** `b` is `a` with every drawing filled with `color` instead, and otherwise unchanged. */
  predicate Recoloured(a: seq<Draw>, b: seq<Draw>, color: string) {
    && |a| == |b|
    && forall i :: 0 <= i < |a| ==>
         a[i].shape == b[i].shape && a[i].state.(fill := b[i].state.fill) == b[i].state && b[i].state.fill == Solid(color)
  }

  lemma RecolouredAppend(a: seq<Draw>, b: seq<Draw>, a': seq<Draw>, b': seq<Draw>, color: string)
    requires Recoloured(a, b, color) && Recoloured(a', b', color)
    ensures Recoloured(a + a', b + b', color)
  {
    forall i | 0 <= i < |a + a'|
      ensures (a + a')[i].shape == (b + b')[i].shape
      ensures (a + a')[i].state.(fill := (b + b')[i].state.fill) == (b + b')[i].state
      ensures (b + b')[i].state.fill == Solid(color)
    {
      if i >= |a| {
        assert (a + a')[i] == a'[i - |a|] && (b + b')[i] == b'[i - |a|];
      }
    }
  }

  /** Each foreground part, drawn for two configurations that differ only in the text colour. */
  lemma PartsRecoloured(cfg: Config, w: nat, h: nat, dpr: real, color: string)
    ensures var cfg' := cfg.(textColor := color);
      && Recoloured(EyebrowLayers(cfg, w, h, dpr), EyebrowLayers(cfg', w, h, dpr), color)
      && Recoloured(HeadingLayers(cfg, w, h, dpr), HeadingLayers(cfg', w, h, dpr), color)
      && Recoloured([DividerLayer(cfg, w, h, dpr)], [DividerLayer(cfg', w, h, dpr)], color)
      && Recoloured(TaglineLayers(cfg, w, h, dpr), TaglineLayers(cfg', w, h, dpr), color)
  {
    HeadingRecoloured(cfg, w, h, dpr, color);
  }

  lemma HeadingRecoloured(cfg: Config, w: nat, h: nat, dpr: real, color: string)
    ensures Recoloured(HeadingLayers(cfg, w, h, dpr), HeadingLayers(cfg.(textColor := color), w, h, dpr), color)
  {
  }

  /** The reference layers are the backdrop followed by the foreground parts. */
  lemma LayersSplit(cfg: Config, env: Env)
    ensures var ds, w, h, dpr := Layers(cfg, env), env.innerWidth, env.innerHeight, Dpr(env);
      && |ds| >= 3
      && ds[..3] == BackdropLayers(cfg, w, h, dpr)
      && ds[3..] == EyebrowLayers(cfg, w, h, dpr) + HeadingLayers(cfg, w, h, dpr)
                    + [DividerLayer(cfg, w, h, dpr)] + TaglineLayers(cfg, w, h, dpr)
  {
    var w, h, dpr := env.innerWidth, env.innerHeight, Dpr(env);
    var l0 := BackdropLayers(cfg, w, h, dpr);
    var rest := EyebrowLayers(cfg, w, h, dpr) + HeadingLayers(cfg, w, h, dpr)
                + [DividerLayer(cfg, w, h, dpr)] + TaglineLayers(cfg, w, h, dpr);
    assert Layers(cfg, env) == l0 + rest;
  }

  /** The foreground parts, taken together, of two configurations that differ only in the text colour. */
  lemma ForegroundRecoloured(cfg: Config, w: nat, h: nat, dpr: real, color: string)
    ensures var cfg' := cfg.(textColor := color);
      Recoloured(EyebrowLayers(cfg, w, h, dpr) + HeadingLayers(cfg, w, h, dpr)
                   + [DividerLayer(cfg, w, h, dpr)] + TaglineLayers(cfg, w, h, dpr),
                 EyebrowLayers(cfg', w, h, dpr) + HeadingLayers(cfg', w, h, dpr)
                   + [DividerLayer(cfg', w, h, dpr)] + TaglineLayers(cfg', w, h, dpr),
                 color)
  {
    var cfg' := cfg.(textColor := color);
    var a1, b1 := EyebrowLayers(cfg, w, h, dpr), EyebrowLayers(cfg', w, h, dpr);
    var a3, b3 := HeadingLayers(cfg, w, h, dpr), HeadingLayers(cfg', w, h, dpr);
    var a4, b4 := [DividerLayer(cfg, w, h, dpr)], [DividerLayer(cfg', w, h, dpr)];
    var a5, b5 := TaglineLayers(cfg, w, h, dpr), TaglineLayers(cfg', w, h, dpr);
    PartsRecoloured(cfg, w, h, dpr, color);
    RecolouredAppend(a1, b1, a3, b3, color);
    RecolouredAppend(a1 + a3, b1 + b3, a4, b4, color);
    RecolouredAppend(a1 + a3 + a4, b1 + b3 + b4, a5, b5, color);
  }

  /** The reference layers of two configurations that differ only in the text colour. */
  lemma LayersRecoloured(cfg: Config, env: Env, color: string)
    ensures var a, b := Layers(cfg, env), Layers(cfg.(textColor := color), env);
      && |a| == |b| && |a| >= 3
      && a[..3] == b[..3]
      && Recoloured(a[3..], b[3..], color)
  {
    var cfg' := cfg.(textColor := color);
    var w, h, dpr := env.innerWidth, env.innerHeight, Dpr(env);
    LayersSplit(cfg, env);
    LayersSplit(cfg', env);
    ForegroundRecoloured(cfg, w, h, dpr, color);
    assert BackdropLayers(cfg', w, h, dpr) == BackdropLayers(cfg, w, h, dpr);
  }

  /**
    Changing only the text colour changes nothing but the fill of the
    foreground: the backdrop drawings are identical, every primitive is the
    same, and every drawing after the backdrop is filled with the new colour.
   */
  lemma TextColorOnlyRecoloursForeground(cfg: Config, env: Env, color: string)
    requires env.contextAvailable
    ensures var a, b := GenerateTextImage(cfg, env).value.draws, GenerateTextImage(cfg.(textColor := color), env).value.draws;
      && |a| == |b| && |a| >= 3
      && a[..3] == b[..3]
      && Recoloured(a[3..], b[3..], color)
  {
    ImageIsLayers(cfg, env);
    ImageIsLayers(cfg.(textColor := color), env);
    LayersRecoloured(cfg, env, color);
  }

  /** Every drawing after the backdrop is filled with the text colour. */
  lemma ForegroundInTextColor(cfg: Config, env: Env)
    requires env.contextAvailable
    ensures forall i :: 3 <= i < |GenerateTextImage(cfg, env).value.draws| ==>
      GenerateTextImage(cfg, env).value.draws[i].state.fill == Solid(cfg.textColor)
  {
    ImageIsLayers(cfg, env);
    LayersRecoloured(cfg, env, cfg.textColor);
    assert cfg.(textColor := cfg.textColor) == cfg;
    var ds := Layers(cfg, env);
    forall i | 3 <= i < |ds|
      ensures ds[i].state.fill == Solid(cfg.textColor)
    {
      assert ds[i] == ds[3..][i - 3];
    }
  }

  /**
    The colour defaults as the image shows them: with `backgroundColor`
    undefined the plate is "#fafafa", with `textColor` undefined every
    drawing after the backdrop is filled "#1d1d1f"; a given colour is used
    as given.
   */
  lemma DefaultColours(p: Props, env: Env)
    requires env.contextAvailable
    ensures |GenerateTextImage(WithDefaults(p), env).value.draws| >= 4
    ensures p.backgroundColor.None? ==>
      GenerateTextImage(WithDefaults(p), env).value.draws[0].state.fill == Solid("#fafafa")
    ensures p.backgroundColor.Some? ==>
      GenerateTextImage(WithDefaults(p), env).value.draws[0].state.fill == Solid(p.backgroundColor.value)
    ensures p.textColor.None? ==> forall i :: 3 <= i < |GenerateTextImage(WithDefaults(p), env).value.draws| ==>
      GenerateTextImage(WithDefaults(p), env).value.draws[i].state.fill == Solid("#1d1d1f")
    ensures p.textColor.Some? ==> forall i :: 3 <= i < |GenerateTextImage(WithDefaults(p), env).value.draws| ==>
      GenerateTextImage(WithDefaults(p), env).value.draws[i].state.fill == Solid(p.textColor.value)
  {
    var cfg := WithDefaults(p);
    DrawCount(cfg, env);
    BackdropFirst(cfg, env);
    ForegroundInTextColor(cfg, env);
  }

  /** The props the demo page passes. */
  const DemoProps: Props := Props(
    Some(["Liquid", "Effect"]),
    Some("Interactive UI Component"),
    Some("Built with Three.js  \U{2022}  React  \U{2022}  Tailwind CSS"),
    Some("#fafafa"),
    Some("#1d1d1f"))

  /** The demo layout on a 1280 by 800 viewport: a 152-pixel heading font on a 164.16-pixel pitch. */
  lemma DemoLayout()
    ensures HeadingFontSize(1280, 800) == 152.0
    ensures LineHeight(1280, 800) == 164.16
    ensures LineY(1280, 800, 2, 0) == 317.92 && LineY(1280, 800, 2, 1) == 482.08
    ensures DividerY(1280, 800, 2) == 669.28
    ensures TaglineY(1280, 800, 2) == 701.28
  {
  }

  const DemoEnv: Env := Env(1280, 800, Some(1.0), true)

  /** The demo props with the colour defaults applied: every prop is set, so nothing defaults. */
  lemma DemoConfig()
    ensures WithDefaults(DemoProps).textColor == "#1d1d1f"
    ensures Lines(WithDefaults(DemoProps)) == 2
    ensures EyebrowCount(WithDefaults(DemoProps)) == 1 && TaglineCount(WithDefaults(DemoProps)) == 1
  {
  }

  /** The demo props on a 1280 by 800 viewport at ratio 1: a 1280 by 800 canvas with eight drawings. */
  lemma DemoCanvas()
    ensures var img := GenerateTextImage(WithDefaults(DemoProps), DemoEnv);
      && img.Some?
      && img.value.width == 1280 && img.value.height == 800
      && |img.value.draws| == 8
  {
    var cfg := WithDefaults(DemoProps);
    DemoConfig();
    assert Dpr(DemoEnv) == 1 as real;
    ImageDimensions(cfg, DemoEnv);
    DeviceSideExact(1280, 1, DefaultCanvasWidth);
    DeviceSideExact(800, 1, DefaultCanvasHeight);
    DrawCount(cfg, DemoEnv);
  }

  /**
    In the demo composition the two heading lines are centred at y = 317.92
    and y = 482.08, the divider at y = 669.28 and the tagline at y = 701.28.
   */
  lemma DemoPositions()
    ensures var img := GenerateTextImage(WithDefaults(DemoProps), DemoEnv);
      && img.Some? && |img.value.draws| == 8
      && img.value.draws[4].shape == Text("Liquid", 640.0, 317.92)
      && img.value.draws[5].shape == Text("Effect", 640.0, 482.08)
      && img.value.draws[6].shape.y == 669.28
      && img.value.draws[7].shape.y == 701.28
  {
    var cfg := WithDefaults(DemoProps);
    DemoConfig();
    DrawCount(cfg, DemoEnv);
    HeadingLines(cfg, DemoEnv);
    DividerPlaced(cfg, DemoEnv);
    TaglinePlaced(cfg, DemoEnv);
    DemoLayout();
  }
}

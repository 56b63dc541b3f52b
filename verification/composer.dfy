/**
  The image composer of the liquid-effect component (`generateTextImage`):
  from the component's props and the window (viewport size, device pixel
  ratio, availability of a 2D context) it builds an offscreen canvas of
  `w*dpr` by `h*dpr` pixels, scales it so that drawing happens in CSS pixels,
  and draws, in order, a background plate, two multiply-blended radial
  washes, an optional upper-cased eyebrow label, the heading lines, a thin
  divider and an optional tagline.

  `Script` transcribes the calls the component makes on the context, in
  order; `Layers` states, independently, which drawings the image must
  consist of and with which state each is drawn; `ScriptDrawsLayers` proves
  the two agree. `TextImageUrl` is what the component returns: the data URL
  of that canvas, which is the empty `"data:,"` when a side is 0.
 */
module Composer {
  import opened Js
  import opened Canvas
  import opened Layout

  /** The component's props; every one of them may be `undefined`. */
  datatype Props = Props(
    text: Option<seq<string>>,
    subText: Option<string>,
    tagline: Option<string>,
    backgroundColor: Option<string>,
    textColor: Option<string>)

  /** The props after destructuring, with the two colour defaults applied. */
  datatype Config = Config(
    text: Option<seq<string>>,
    subText: Option<string>,
    tagline: Option<string>,
    backgroundColor: string,
    textColor: string)

  /** What the composer reads from the window and the offscreen canvas. */
  datatype Env = Env(
    innerWidth: nat,
    innerHeight: nat,
    devicePixelRatio: Option<real>,
    contextAvailable: bool)

  /** The composed image: canvas size in device pixels and the drawings on it. */
  datatype Image = Image(width: nat, height: nat, draws: seq<Draw>)

  const DefaultBackground: string := "#fafafa"
  const DefaultTextColor: string := "#1d1d1f"

  /** Destructuring with defaults: a colour that is `undefined` takes its default, any other value is kept. */
  function WithDefaults(p: Props): Config
  {
    Config(
      p.text, p.subText, p.tagline,
      if p.backgroundColor.Some? then p.backgroundColor.value else DefaultBackground,
      if p.textColor.Some? then p.textColor.value else DefaultTextColor)
  }

  /** `window.devicePixelRatio || 1`. */
  function Dpr(env: Env): real {
    NumberOr(env.devicePixelRatio, 1.0)
  }

  /** The number of heading lines, `text?.length || 0`. */
  function Lines(cfg: Config): nat {
    LengthOrZero(cfg.text)
  }

  // ---------------------------------------------------------------------------
  // Fixed fonts and washes

  function EyebrowFont(w: nat): Font {
    Font(600, SubFontSize(w), DisplayStack)
  }

  function HeadingFont(w: nat, h: nat): Font {
    Font(700, HeadingFontSize(w, h), DisplayStack)
  }

  function TaglineFont(w: nat): Font {
    Font(400, TagFontSize(w), TextStack)
  }

  /** The cool wash centred at (0.5 w, 0.1 h), radius 0.6 w. */
  function TopWash(w: nat, h: nat): Paint {
    Radial(w as real * 0.5, h as real * 0.1, 0.0, w as real * 0.5, h as real * 0.1, w as real * 0.6,
      [Stop(0.0, "rgba(220, 225, 240, 0.6)"), Stop(1.0, "rgba(250, 250, 250, 1)")])
  }

  /** The warm wash centred at (0.5 w, 0.95 h), radius 0.5 w. */
  function BottomWash(w: nat, h: nat): Paint {
    Radial(w as real * 0.5, h as real * 0.95, 0.0, w as real * 0.5, h as real * 0.95, w as real * 0.5,
      [Stop(0.0, "rgba(240, 230, 220, 0.4)"), Stop(1.0, "rgba(250, 250, 250, 1)")])
  }

  // ---------------------------------------------------------------------------
  // The calls the component makes, in source order

  /** Sets the fill style and fills the whole `w` by `h` surface with it. */
  function FillSurface(p: Paint, w: nat, h: nat): seq<Op> {
    [SetFill(p), FillRect(0.0, 0.0, w as real, h as real)]
  }

  /** Scale to device pixels, background plate, the two multiply washes, back to source-over. */
  function BackdropOps(cfg: Config, w: nat, h: nat, dpr: real): seq<Op> {
    [Scale(dpr)]
    + FillSurface(Solid(cfg.backgroundColor), w, h)
    + [SetComposite(Multiply)]
    + FillSurface(TopWash(w, h), w, h)
    + FillSurface(BottomWash(w, h), w, h)
    + [SetComposite(SourceOver)]
  }

  /** The eyebrow label's state, and the label itself only when `subText` is truthy. */
  function EyebrowOps(cfg: Config, w: nat, h: nat): seq<Op> {
    [ SetFill(Solid(cfg.textColor)), SetAlpha(0.35), SetFont(EyebrowFont(w)),
      SetAlign(Center), SetSpacing(Em(0.25)) ]
    + (if StringTruthy(cfg.subText)
       then [FillText(ToUpperCase(cfg.subText.value), CentreX(w), SubTextY(w, h))]
       else [])
  }

  /** The heading's state: opaque, tight tracking, heavy font, centred, middle baseline. */
  function HeadingSetupOps(w: nat, h: nat): seq<Op> {
    [ SetAlpha(1.0), SetSpacing(Em(-0.04)), SetFont(HeadingFont(w, h)),
      SetAlign(Center), SetBaseline(Middle) ]
  }

  /** The y coordinate of the line with index `j`, the first line being at `y0`. */
  function RowY(y0: real, lh: real, j: nat): real {
    y0 + j as real * lh
  }

  /** The `forEach` over the heading lines, the first of `lines` having index `k`. */
  function LineOps(lines: seq<string>, k: nat, x: real, y0: real, lh: real, color: string): (ops: seq<Op>)
    decreases |lines|
  {
    if lines == [] then []
    else
      [SetFill(Solid(color)), SetAlpha(1.0), FillText(lines[0], x, RowY(y0, lh, k))]
      + LineOps(lines[1..], k + 1, x, y0, lh, color)
  }

  function HeadingOps(cfg: Config, w: nat, h: nat): seq<Op> {
    LineOps(Elements(cfg.text), 0, CentreX(w), StartY(w, h, Lines(cfg)), LineHeight(w, h), cfg.textColor)
  }

  /** The divider, 60 by 0.5 pixels at 12% opacity. */
  function DividerOps(cfg: Config, w: nat, h: nat): seq<Op> {
    [ SetAlpha(0.12), SetFill(Solid(cfg.textColor)),
      FillRect(CentreX(w) - DividerHalfWidth, DividerY(w, h, Lines(cfg)), 2.0 * DividerHalfWidth, DividerHeight) ]
  }

  /** The tagline, only when `tagline` is truthy. */
  function TaglineOps(cfg: Config, w: nat, h: nat): seq<Op> {
    if StringTruthy(cfg.tagline) then
      [ SetAlpha(0.3), SetSpacing(Em(0.02)), SetFont(TaglineFont(w)),
        FillText(cfg.tagline.value, CentreX(w), TaglineY(w, h, Lines(cfg))) ]
    else []
  }

  /** Every call made on the context after it is obtained. */
  function Script(cfg: Config, env: Env): seq<Op> {
    var w, h := env.innerWidth, env.innerHeight;
    BackdropOps(cfg, w, h, Dpr(env)) + EyebrowOps(cfg, w, h) + HeadingSetupOps(w, h)
      + HeadingOps(cfg, w, h) + DividerOps(cfg, w, h) + TaglineOps(cfg, w, h)
  }

  /**
    `generateTextImage`: no image when the canvas yields no 2D context;
    otherwise a canvas whose `width` and `height` attributes are assigned
    `w*dpr` and `h*dpr` (see `DeviceSide`), carrying every drawing the script makes.
   */
  function GenerateTextImage(cfg: Config, env: Env): (r: Option<Image>)
    ensures r.None? <==> !env.contextAvailable
  {
    if !env.contextAvailable then None
    else Some(Image(CanvasWidth(env), CanvasHeight(env), Exec(Initial, Script(cfg, env)).draws))
  }

  /**
    The string `toDataURL("image/png")` returns: `"data:,"` for a bitmap with
    no pixels, otherwise a PNG of the canvas. Both are non-empty strings, so
    both are truthy.
   */
  datatype DataUrl = EmptyUrl | PngUrl(image: Image)

  /** A canvas with a zero side has no pixels. */
  predicate NoPixels(img: Image) {
    img.width == 0 || img.height == 0
  }

  /** `offscreen.toDataURL("image/png")`. */
  function ToDataUrl(img: Image): DataUrl {
    if NoPixels(img) then EmptyUrl else PngUrl(img)
  }

  /** What `generateTextImage()` returns: `null` without a context, else the canvas's data URL. */
  function TextImageUrl(cfg: Config, env: Env): (r: Option<DataUrl>)
    ensures r.None? <==> !env.contextAvailable
  {
    var img := GenerateTextImage(cfg, env);
    if img.None? then None else Some(ToDataUrl(img.value))
  }

  /**
    The data URL determines the canvas exactly when the canvas has pixels:
    two canvases give the same URL if and only if they are equal or both
    have no pixels, and a canvas with pixels can be read back from its URL.
   */
  lemma DataUrlInjective(a: Image, b: Image)
    ensures ToDataUrl(a) == ToDataUrl(b) <==> a == b || (NoPixels(a) && NoPixels(b))
    ensures ToDataUrl(a).PngUrl? <==> !NoPixels(a)
    ensures ToDataUrl(a).PngUrl? ==> ToDataUrl(a).image == a
  {
  }

  /** `offscreen.width = w * dpr`. */
  function CanvasWidth(env: Env): nat {
    DeviceSide(env.innerWidth, Dpr(env), DefaultCanvasWidth)
  }

  /** `offscreen.height = h * dpr`. */
  function CanvasHeight(env: Env): nat {
    DeviceSide(env.innerHeight, Dpr(env), DefaultCanvasHeight)
  }

  /** The canvas's `width` and `height` when an out-of-range value is assigned. */
  const DefaultCanvasWidth: nat := 300
  const DefaultCanvasHeight: nat := 150

  /** The largest value a reflected `unsigned long` attribute such as `canvas.width` keeps. */
  const MaxReflected: nat := 0x7FFF_FFFF

  /**
    `offscreen.width = w * dpr`: a CSS length scaled to device pixels,
    converted to `unsigned long`, and kept only when it is at most 2^31 - 1;
    a larger value resets the attribute to its default (300 for `width`,
    150 for `height`).
   */
  function DeviceSide(css: nat, dpr: real, fallback: nat): nat {
    var n := ToUnsignedLong(css as real * dpr);
    if n <= MaxReflected then n else fallback
  }

  /**
    The stored side is the scaled length truncated while that is below 2^31,
    and the default once the scaled length reaches 2^31 (up to 2^32).
   */
  lemma DeviceSideBounds(css: nat, dpr: real, fallback: nat)
    ensures DeviceSide(css, dpr, fallback) <= MaxReflected || DeviceSide(css, dpr, fallback) == fallback
    ensures 0.0 <= css as real * dpr < MaxReflected as real + 1.0 ==>
      DeviceSide(css, dpr, fallback) as real <= css as real * dpr < DeviceSide(css, dpr, fallback) as real + 1.0
    ensures MaxReflected as real + 1.0 <= css as real * dpr < TwoTo32 as real ==> DeviceSide(css, dpr, fallback) == fallback
  {
  }

  /** With a whole-number ratio the stored side is exactly the scaled length, while that is at most 2^31 - 1. */
  lemma DeviceSideExact(css: nat, k: nat, fallback: nat)
    requires css * k <= MaxReflected
    ensures DeviceSide(css, k as real, fallback) == css * k
  {
    ToUnsignedLongOfProduct(css, k);
  }

  /** With a whole-number ratio and a scaled length from 2^31 to 2^32 - 1, the side falls back to its default. */
  lemma DeviceSideTooLarge(css: nat, k: nat, fallback: nat)
    requires MaxReflected < css * k < TwoTo32
    ensures DeviceSide(css, k as real, fallback) == fallback
  {
    ToUnsignedLongOfProduct(css, k);
  }

  /**
    The canvas is `w*dpr` by `h*dpr`, `dpr` never being 0: each side is the
    scaled length truncated while that is below 2^31, and the default (300
    wide, 150 high) when the scaled length lies from 2^31 to 2^32.
   */
  lemma CanvasSides(env: Env)
    ensures Dpr(env) != 0.0
    ensures 0.0 <= env.innerWidth as real * Dpr(env) < MaxReflected as real + 1.0 ==>
      CanvasWidth(env) as real <= env.innerWidth as real * Dpr(env) < CanvasWidth(env) as real + 1.0
    ensures MaxReflected as real + 1.0 <= env.innerWidth as real * Dpr(env) < TwoTo32 as real ==>
      CanvasWidth(env) == DefaultCanvasWidth
    ensures 0.0 <= env.innerHeight as real * Dpr(env) < MaxReflected as real + 1.0 ==>
      CanvasHeight(env) as real <= env.innerHeight as real * Dpr(env) < CanvasHeight(env) as real + 1.0
    ensures MaxReflected as real + 1.0 <= env.innerHeight as real * Dpr(env) < TwoTo32 as real ==>
      CanvasHeight(env) == DefaultCanvasHeight
  {
    DprNonZero(env);
    DeviceSideBounds(env.innerWidth, Dpr(env), DefaultCanvasWidth);
    DeviceSideBounds(env.innerHeight, Dpr(env), DefaultCanvasHeight);
  }

  /** `devicePixelRatio || 1` is never 0: it is the reported ratio, or 1 when that is absent or 0. */
  lemma DprNonZero(env: Env)
    ensures Dpr(env) != 0.0
    ensures Dpr(env) == 1.0 || env.devicePixelRatio == Some(Dpr(env))
    ensures env.devicePixelRatio.None? ==> Dpr(env) == 1.0
    ensures env.devicePixelRatio.Some? && env.devicePixelRatio.value != 0.0 ==> Dpr(env) == env.devicePixelRatio.value
  {
  }

  // ---------------------------------------------------------------------------
  // The reference plan: which drawings, with which state

  /** State after scaling to device pixels, before any drawing. */
  function BaseState(dpr: real): Ctx {
    Initial.(scale := dpr)
  }

  function EyebrowState(cfg: Config, w: nat, dpr: real): Ctx {
    BaseState(dpr).(fill := Solid(cfg.textColor), alpha := 0.35, font := EyebrowFont(w),
                    align := Center, spacing := Em(0.25))
  }

  function HeadingState(cfg: Config, w: nat, h: nat, dpr: real): Ctx {
    EyebrowState(cfg, w, dpr).(alpha := 1.0, spacing := Em(-0.04), font := HeadingFont(w, h),
                               baseline := Middle)
  }

  function DividerState(cfg: Config, w: nat, h: nat, dpr: real): Ctx {
    HeadingState(cfg, w, h, dpr).(alpha := 0.12)
  }

  function TaglineState(cfg: Config, w: nat, h: nat, dpr: real): Ctx {
    HeadingState(cfg, w, h, dpr).(alpha := 0.3, spacing := Em(0.02), font := TaglineFont(w))
  }

  function BackdropLayers(cfg: Config, w: nat, h: nat, dpr: real): seq<Draw> {
    var full := Rect(0.0, 0.0, w as real, h as real);
    [ Draw(full, BaseState(dpr).(fill := Solid(cfg.backgroundColor))),
      Draw(full, BaseState(dpr).(fill := TopWash(w, h), composite := Multiply)),
      Draw(full, BaseState(dpr).(fill := BottomWash(w, h), composite := Multiply)) ]
  }

  function EyebrowLayers(cfg: Config, w: nat, h: nat, dpr: real): seq<Draw> {
    if StringTruthy(cfg.subText)
    then [Draw(Text(ToUpperCase(cfg.subText.value), CentreX(w), SubTextY(w, h)), EyebrowState(cfg, w, dpr))]
    else []
  }

  function HeadingLayers(cfg: Config, w: nat, h: nat, dpr: real): seq<Draw> {
    var lines, n := Elements(cfg.text), Lines(cfg);
    seq(n, i requires 0 <= i < n => Draw(Text(lines[i], CentreX(w), LineY(w, h, n, i)), HeadingState(cfg, w, h, dpr)))
  }

  function DividerLayer(cfg: Config, w: nat, h: nat, dpr: real): Draw {
    Draw(Rect(CentreX(w) - DividerHalfWidth, DividerY(w, h, Lines(cfg)), 2.0 * DividerHalfWidth, DividerHeight),
         DividerState(cfg, w, h, dpr))
  }

  function TaglineLayers(cfg: Config, w: nat, h: nat, dpr: real): seq<Draw> {
    if StringTruthy(cfg.tagline)
    then [Draw(Text(cfg.tagline.value, CentreX(w), TaglineY(w, h, Lines(cfg))), TaglineState(cfg, w, h, dpr))]
    else []
  }

  /** The image's drawings, bottom layer first. */
  function Layers(cfg: Config, env: Env): seq<Draw> {
    var w, h, dpr := env.innerWidth, env.innerHeight, Dpr(env);
    BackdropLayers(cfg, w, h, dpr) + EyebrowLayers(cfg, w, h, dpr) + HeadingLayers(cfg, w, h, dpr)
      + [DividerLayer(cfg, w, h, dpr)] + TaglineLayers(cfg, w, h, dpr)
  }
}

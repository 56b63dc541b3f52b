# Liquid effect animation: image composer and effect guards

A Dafny model of the `LiquidEffectAnimation` React component
(`src/components/ui/liquid-effect-animation.tsx`). The component does two things:

- It composes a text image on an offscreen canvas (`generateTextImage`). The canvas is
  sized to the viewport times the device pixel ratio. On it the component draws a
  background plate, two multiply-blended radial light washes, an optional upper-cased
  eyebrow label (`subText`), the heading lines (`text`), a thin divider and an optional
  tagline.
- It runs an effect that hands that image to a liquid-surface engine through an appended
  module script. The effect registers a cleanup that disposes the engine and removes the
  script.

How the model is built:

- `Js` models the JavaScript semantics the component relies on:
  - `undefined` props;
  - truthiness in `subText`, `tagline`, `text?.length || 0` and `devicePixelRatio || 1`;
  - `toUpperCase`;
  - the `unsigned long` conversion applied when `canvas.width` is assigned. `Composer.DeviceSide` adds the canvas's reset to the default (300 by 150) when the converted value exceeds 2^31 - 1.
- `Canvas` models the 2D context as a drawing state (scale, fill, alpha, compositing,
  font, alignment, baseline, letter spacing). Setter calls change that state. Each
  `fillRect`/`fillText` records its primitive together with the state in force when it
  is called.
- `Layout` holds the layout arithmetic over `real`, so identities such as centring and
  spacing hold exactly.
- `Composer.Script` transcribes, in source order, every call the component makes on the
  context. `Composer.Layers` states independently which drawings the image consists of.
  `ComposerLemmas.ScriptDrawsLayers` proves the two agree, drawing for drawing and state
  for state.
- `ImageFacts` proves the properties of the composed image.
- `Lifecycle` models the mount/cleanup guards as pure functions over a small page record.

`generateTextImage` returns `canvas.toDataURL("image/png")`. `Composer.ToDataUrl` models
that string. A canvas with a zero side, which a viewport side below one device pixel
produces, yields `"data:,"` and loses every drawing. Any other canvas yields a PNG URL,
represented by the `Image` value it encodes. Both strings are truthy, so the effect
appends its script in either case (`Lifecycle.EmptyImageStillAppended`).

Three behaviours of the code are worth stating outright:

- **Divider position.** The divider is drawn at `startY + n*lineHeight + 0.018*w`. That is
  `lineHeight/2 + 0.018*w` below the bottom edge of the heading block
  (`Layout.DividerBelowBlock`). With no heading lines it is therefore
  `lineHeight/2 + 0.018*w` below the vertical middle, not at the middle
  (`Layout.DividerWithoutLines`, `ImageFacts.NoHeadingLines`).
- **Repeated dispose.** The cleanup guards only against a missing global or a missing
  `dispose` member. It never clears `window.__liquidApp`, so a later cleanup calls
  `dispose` on the same engine again (`Lifecycle.CleanupTwice`).
- **No staleness marker.** Nothing marks a pending module script as stale. Removing a
  module script element after it has been inserted does not stop it from running. So
  when the effect runs again while the canvas is still mounted, every inserted script
  still binds an engine to `#liquid-canvas` and overwrites `window.__liquidApp`. The
  script's `getElementById` check skips the binding only once the canvas element is gone.

## Model

| member | source | states |
|---|---|---|
| `ImageFacts.DefaultColours` | src/components/ui/liquid-effect-animation.tsx:17-18 | with `backgroundColor` undefined the background plate of the image is "#fafafa", and with `textColor` undefined every drawing after the backdrop is filled "#1d1d1f"; a colour that is given is the one drawn |
| `Composer.DprNonZero` | src/components/ui/liquid-effect-animation.tsx:23 | `devicePixelRatio \|\| 1` is never 0, whatever the window reports: it is the reported ratio or 1, and 1 when the ratio is absent |
| `Js.Elements` | src/components/ui/liquid-effect-animation.tsx:77-80 | the lines `text?.forEach` visits are exactly the `text` array (none when it is absent), and their number is `text?.length \|\| 0`, the count the block height is computed from |
| `Js.UpperCaseHasNoLower` | src/components/ui/liquid-effect-animation.tsx:65 | the upper-cased label contains no lower-case ASCII letter |
| `Js.UpperCaseIdempotent` | src/components/ui/liquid-effect-animation.tsx:65 | upper-casing an already upper-cased label changes nothing |
| `Js.UpperCasePreservesTruthiness` | src/components/ui/liquid-effect-animation.tsx:64-65 | the upper-cased label is empty exactly when `subText` is, so the truthiness test and the drawn text agree |
| `Js.ToUnsignedLong` | src/components/ui/liquid-effect-animation.tsx:27-28 | the WebIDL `unsigned long` conversion of an assigned number yields a value below 2^32; for a number in `[0, 2^32)` it is that number truncated (value ≤ x < value + 1) |
| `Composer.DeviceSideBounds` | src/components/ui/liquid-effect-animation.tsx:27-28 | a stored canvas side is at most 2^31 - 1 or is the attribute default; it is the scaled length truncated while that is below 2^31, and the default once the scaled length is from 2^31 up to 2^32 |
| `Composer.DeviceSideExact` | src/components/ui/liquid-effect-animation.tsx:27-28 | with a whole-number ratio `k` and `w*k` at most 2^31 - 1, the canvas side is exactly `w*k` |
| `Composer.DeviceSideTooLarge` | src/components/ui/liquid-effect-animation.tsx:27-28 | with a whole-number ratio `k` and `w*k` from 2^31 to 2^32 - 1, the canvas side is the attribute default |
| `Composer.GenerateTextImage` | src/components/ui/liquid-effect-animation.tsx:29-30 | no image exactly when the canvas yields no 2D context; otherwise an image always results, whatever the props |
| `ImageFacts.ImageDimensions` | src/components/ui/liquid-effect-animation.tsx:23-28 | the image's sides are the canvas's; the ratio is never 0; each side is `w*dpr` (resp. `h*dpr`) truncated while that is below 2^31, and 300 (resp. 150) when it is from 2^31 to 2^32 |
| `ImageFacts.ImageDimensionsWhole` | src/components/ui/liquid-effect-animation.tsx:23-28 | at a whole-number ratio `k` the image is exactly `w*k` by `h*k` while each product is at most 2^31 - 1, and a side is 300 (resp. 150) when its product is from 2^31 to 2^32 - 1 |
| `Composer.DataUrlInjective` | src/components/ui/liquid-effect-animation.tsx:101 | two canvases give the same data URL exactly when they are equal or both have no pixels; a canvas has a PNG URL exactly when both sides are non-zero, and that URL carries the canvas |
| `ImageFacts.ImageUrl` | src/components/ui/liquid-effect-animation.tsx:101 | the returned URL carries the composed image exactly when both canvas sides are non-zero |
| `ImageFacts.SubPixelViewportGivesEmptyUrl` | src/components/ui/liquid-effect-animation.tsx:23-28 | when a viewport side scales to less than one device pixel, the component returns `"data:,"` although at least four drawings were made |
| `Layout.HeadingFontSize` | src/components/ui/liquid-effect-animation.tsx:71 | the heading font is at most `0.13*w` and at most `0.19*h`, and equals one of them |
| `Layout.SubFontSize` | src/components/ui/liquid-effect-animation.tsx:60 | the eyebrow font is at least 11 and at least `0.009*w`, and equals one of them |
| `Layout.TagFontSize` | src/components/ui/liquid-effect-animation.tsx:96 | the tagline font is at least 11 and at least `0.01*w`, and equals one of them |
| `Layout.LinesEvenlySpaced` | src/components/ui/liquid-effect-animation.tsx:76-83 | consecutive heading lines are exactly one line height apart |
| `Layout.LinesSymmetricAboutMiddle` | src/components/ui/liquid-effect-animation.tsx:76-83 | the first and last heading line centres are mirror images about `h/2`, so the block is vertically centred |
| `Layout.LinePairsSymmetric` | src/components/ui/liquid-effect-animation.tsx:76-83 | line `i` and line `n-1-i` are mirror images about `h/2` |
| `Layout.DividerBelowLastLine` | src/components/ui/liquid-effect-animation.tsx:76-89 | the divider is one line height plus `0.018*w` below the last line's centre, so strictly below it when `w > 0` |
| `Layout.DividerBelowBlock` | src/components/ui/liquid-effect-animation.tsx:76-89 | the divider is half a line height plus `0.018*w` below the bottom edge `h/2 + n*lineHeight/2` of the heading block |
| `Layout.DividerWithoutLines` | src/components/ui/liquid-effect-animation.tsx:77-89 | with zero lines the divider is at `h/2 + lineHeight/2 + 0.018*w` |
| `Layout.TaglineBelowDivider` | src/components/ui/liquid-effect-animation.tsx:89-98 | the tagline is `0.025*w` below the divider, so strictly below it when `w > 0` |
| `ComposerLemmas.ScriptDrawsLayers` | src/components/ui/liquid-effect-animation.tsx:32-98 | the calls the component makes, run on a fresh context, draw exactly the reference layers, each with the state the plan assigns it |
| `ImageFacts.DrawCount` | src/components/ui/liquid-effect-animation.tsx:35-99 | the image has 4 + n drawings, plus one for a truthy `subText` and one for a truthy `tagline` |
| `ImageFacts.BackdropFirst` | src/components/ui/liquid-effect-animation.tsx:35-53 | the first three drawings cover `[0,w]×[0,h]`: first the background colour at source-over, then two multiply radial washes centred at `(0.5w, 0.1h)` (radius `0.6w`) and `(0.5w, 0.95h)` (radius `0.5w`) |
| `ImageFacts.ForegroundSourceOver` | src/components/ui/liquid-effect-animation.tsx:32-98 | every drawing after the backdrop is source-over; no text comes before the reset; every drawing is made under the `dpr` scale |
| `ImageFacts.EyebrowLabel` | src/components/ui/liquid-effect-animation.tsx:57-66 | a truthy `subText` is drawn upper-cased at `(w/2, h/2 - 0.095*w)` at alpha 0.35 in the text colour, on the alphabetic baseline, in a font of at least 11; a drawing at alpha 0.35 exists exactly when `subText` is truthy |
| `ImageFacts.HeadingTextCount` | src/components/ui/liquid-effect-animation.tsx:71-84 | exactly `text?.length \|\| 0` texts are set in the heading font; absent `text` gives none |
| `ImageFacts.HeadingLines` | src/components/ui/liquid-effect-animation.tsx:69-84 | line `i` is drawn at `(w/2, startY + i*lineHeight)` in the heading font, at alpha 1, source-over, in the text colour, on the middle baseline |
| `ImageFacts.DividerPlaced` | src/components/ui/liquid-effect-animation.tsx:86-90 | the divider always follows the heading lines: a rectangle over `[w/2-30, w/2+30]`, 0.5 tall, at `dividerY`, alpha 0.12, in the text colour, below the last line when `w > 0` |
| `ImageFacts.NoHeadingLines` | src/components/ui/liquid-effect-animation.tsx:77-90 | with `text` absent or empty an image still results, no heading text is drawn, and the divider sits at `h/2 + lineHeight/2 + 0.018*w` |
| `ImageFacts.TaglinePlaced` | src/components/ui/liquid-effect-animation.tsx:92-99 | the tagline is drawn exactly when `tagline` is truthy, as the last drawing, at `(w/2, dividerY + 0.025*w)`, alpha 0.3, in a font of at least 11, below the divider when `w > 0` |
| `ImageFacts.LayersRecoloured` | src/components/ui/liquid-effect-animation.tsx:35-98 | changing only the text colour leaves the backdrop drawings identical and every primitive unchanged, and refills every later drawing with the new colour |
| `ImageFacts.ForegroundInTextColor` | src/components/ui/liquid-effect-animation.tsx:56-98 | every drawing after the three backdrop drawings (eyebrow, heading lines, divider, tagline) is filled with `textColor` |
| `ImageFacts.TextColorOnlyRecoloursForeground` | src/components/ui/liquid-effect-animation.tsx:35-98 | the same holds for the composed images |
| `ImageFacts.DemoCanvas` | src/app/demo/page.tsx:6-10 | the demo props on a 1280×800 viewport at ratio 1 give a 1280×800 image with eight drawings |
| `ImageFacts.DemoPositions` | src/app/demo/page.tsx:6-10 | in that image the heading lines are centred at y = 317.92 and 482.08, the divider is at 669.28 and the tagline at 701.28 |
| `Lifecycle.Setup` | src/components/ui/liquid-effect-animation.tsx:104-127 | a cleanup is registered exactly when the canvas is mounted and a context (hence an image) exists; otherwise nothing changes and nothing is called; on success exactly one script, carrying the canvas's data URL, is appended |
| `Lifecycle.Cleanup` | src/components/ui/liquid-effect-animation.tsx:128-135 | `dispose` is called exactly when the global app exists and has `dispose`, and then only once; the script is removed exactly when it is still attached; `dispose` precedes removal; the global is not cleared |
| `Lifecycle.SetupThenUnmount` | src/components/ui/liquid-effect-animation.tsx:104-135 | for every page and window, the effect followed by an unmount makes no call when the canvas is missing or no context exists; otherwise it appends one script and later removes it, and calls `dispose` exactly when the engine published meanwhile exists and has `dispose` |
| `Lifecycle.CleanupTwice` | src/components/ui/liquid-effect-animation.tsx:128-135 | a second cleanup removes no script; it calls `dispose` again exactly when the first did |
| `Lifecycle.MountThenUnmount` | src/components/ui/liquid-effect-animation.tsx:104-135 | mounting with a canvas and context and then unmounting with a disposable engine appends one script, disposes exactly once, and removes the script |
| `Lifecycle.EmptyImageStillAppended` | src/components/ui/liquid-effect-animation.tsx:107-108 | with the canvas mounted, a context, and a zero viewport side, the effect still registers its cleanup and appends one script carrying `"data:,"` |

## Left out

- Pixel rendering is not modelled, because it belongs to the browser canvas: colour interpolation of the radial gradients, multiply blending and font rasterisation. Drawings are recorded as primitives plus drawing state.
- Font strings are not modelled. They are built from a weight, a size in pixels and a family list, and the model keeps those three fields instead of parsing the CSS `font` string.
- Unparsable CSS colours are not modelled. The canvas ignores a colour it cannot parse and keeps the previous fill, but the model treats every colour string as valid.
- IEEE-754 rounding, NaN and infinities are not modelled: numbers are `real`. A NaN `devicePixelRatio`, which JavaScript also treats as falsy, is not modelled.
- Composer.ToDataUrl: a canvas with pixels is identified with its drawings, not its pixels. Two drawing lists that rasterise to the same pixels give the same PNG, but the model distinguishes them. A failed serialisation, which also yields `"data:,"`, is not modelled.
- The module script's body (lines 110-125) is foreign code, loaded asynchronously from a CDN: the three.js liquid engine, `loadImage`, the material and uniform settings, `setRain` and the assignment to `window.__liquidApp`. Whether the global engine exists, and whether it has `dispose`, are inputs of `Lifecycle`.
- React machinery is not modelled: `useCallback` memoisation and its dependency lists (lines 102, 136), `useRef`, the JSX markup (lines 138-146) and the `declare global` block.
- Browser limits on canvas size are not modelled beyond the reset of `width`/`height` above 2^31 - 1. A canvas too large to get a context is covered by the `contextAvailable` input.
- Module scripts that keep running after their element is removed are not modelled. `Lifecycle` records only the calls the effect and its cleanup make, so it does not show that a removed script can still bind an engine to the canvas and replace `window.__liquidApp`.
- `src/app/page.tsx` is static markup with no logic. `src/app/demo/page.tsx` is used only for the demo props.
- Js.ToUpperCase: covers ASCII letters only. Full Unicode case mapping, such as a character that upper-cases to two characters, is not modelled.

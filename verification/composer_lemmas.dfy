/**
  What the composer's script draws: the segment-by-segment proof that the
  calls of `Composer.Script` produce exactly `Composer.Layers`, and the
  properties of the composed image that follow from it.
 */
module ComposerLemmas {
  import opened Js
  import opened Canvas
  import opened Layout
  import opened Composer

  lemma FillSurfaceRun(c: Ctx, p: Paint, w: nat, h: nat)
    ensures Exec(c, FillSurface(p, w, h)) == Trace(c.(fill := p), [Draw(Rect(0.0, 0.0, w as real, h as real), c.(fill := p))])
  {
    ExecTwo(c, SetFill(p), FillRect(0.0, 0.0, w as real, h as real));
  }

  /** The scale, the background plate, and the switch to multiply. */
  lemma PlateRun(cfg: Config, w: nat, h: nat, dpr: real)
    ensures Exec(Initial, [Scale(dpr)] + FillSurface(Solid(cfg.backgroundColor), w, h) + [SetComposite(Multiply)])
         == Trace(BaseState(dpr).(fill := Solid(cfg.backgroundColor), composite := Multiply),
                  [Draw(Rect(0.0, 0.0, w as real, h as real), BaseState(dpr).(fill := Solid(cfg.backgroundColor)))])
  {
    var b := BaseState(dpr);
    var plate := b.(fill := Solid(cfg.backgroundColor));
    var d1 := Draw(Rect(0.0, 0.0, w as real, h as real), plate);
    ExecOne(Initial, Scale(dpr));
    FillSurfaceRun(b, Solid(cfg.backgroundColor), w, h);
    ExecOne(plate, SetComposite(Multiply));
    ExecThen3(Initial, [Scale(dpr)], FillSurface(Solid(cfg.backgroundColor), w, h), [SetComposite(Multiply)],
      Trace(b, []), Trace(plate, [d1]), Trace(plate.(composite := Multiply), []));
  }

  /** The two washes under multiply, then the switch back to source-over. */
  lemma WashesRun(c: Ctx, w: nat, h: nat)
    ensures Exec(c, FillSurface(TopWash(w, h), w, h) + FillSurface(BottomWash(w, h), w, h) + [SetComposite(SourceOver)])
         == Trace(c.(fill := BottomWash(w, h), composite := SourceOver),
                  [Draw(Rect(0.0, 0.0, w as real, h as real), c.(fill := TopWash(w, h))),
                   Draw(Rect(0.0, 0.0, w as real, h as real), c.(fill := BottomWash(w, h)))])
  {
    var full := Rect(0.0, 0.0, w as real, h as real);
    var d2 := Draw(full, c.(fill := TopWash(w, h)));
    var d3 := Draw(full, c.(fill := BottomWash(w, h)));
    FillSurfaceRun(c, TopWash(w, h), w, h);
    FillSurfaceRun(c.(fill := TopWash(w, h)), BottomWash(w, h), w, h);
    ExecOne(c.(fill := BottomWash(w, h)), SetComposite(SourceOver));
    ExecThen3(c, FillSurface(TopWash(w, h), w, h), FillSurface(BottomWash(w, h), w, h), [SetComposite(SourceOver)],
      Trace(c.(fill := TopWash(w, h)), [d2]), Trace(c.(fill := BottomWash(w, h)), [d3]),
      Trace(c.(fill := BottomWash(w, h), composite := SourceOver), []));
  }

  lemma BackdropRun(cfg: Config, w: nat, h: nat, dpr: real)
    ensures Exec(Initial, BackdropOps(cfg, w, h, dpr)) == Trace(BaseState(dpr).(fill := BottomWash(w, h)), BackdropLayers(cfg, w, h, dpr))
  {
    var plate := [Scale(dpr)] + FillSurface(Solid(cfg.backgroundColor), w, h) + [SetComposite(Multiply)];
    var washes := FillSurface(TopWash(w, h), w, h) + FillSurface(BottomWash(w, h), w, h) + [SetComposite(SourceOver)];
    var m := BaseState(dpr).(fill := Solid(cfg.backgroundColor), composite := Multiply);
    assert BackdropOps(cfg, w, h, dpr) == plate + washes;
    PlateRun(cfg, w, h, dpr);
    WashesRun(m, w, h);
    ExecAppend(Initial, plate, washes);
  }

  /** Five setters in a row draw nothing and apply each in turn. */
  lemma FiveSetters(c: Ctx, a: Op, b: Op, d: Op, e: Op, f: Op)
    requires !IsDrawing(a) && !IsDrawing(b) && !IsDrawing(d) && !IsDrawing(e) && !IsDrawing(f)
    ensures Exec(c, [a, b, d, e, f]) == Trace(Step(Step(Step(Step(Step(c, a), b), d), e), f), [])
  {
    ExecOne(c, a);
    ExecSnoc(c, [a], b);
    assert [a] + [b] == [a, b];
    ExecSnoc(c, [a, b], d);
    assert [a, b] + [d] == [a, b, d];
    ExecSnoc(c, [a, b, d], e);
    assert [a, b, d] + [e] == [a, b, d, e];
    ExecSnoc(c, [a, b, d, e], f);
    assert [a, b, d, e] + [f] == [a, b, d, e, f];
  }

  /** Three calls in a row. */
  lemma ThreeCalls(c: Ctx, a: Op, b: Op, d: Op)
    ensures Exec(c, [a, b, d]) == Trace(Step(Step(Step(c, a), b), d), Emit(c, a) + Emit(Step(c, a), b) + Emit(Step(Step(c, a), b), d))
  {
    ExecOne(c, a);
    ExecSnoc(c, [a], b);
    assert [a] + [b] == [a, b];
    ExecSnoc(c, [a, b], d);
    assert [a, b] + [d] == [a, b, d];
  }

  lemma EyebrowRun(c: Ctx, cfg: Config, w: nat, h: nat, dpr: real)
    requires c.scale == dpr && c.composite == SourceOver && c.baseline == Alphabetic
    ensures Exec(c, EyebrowOps(cfg, w, h)) == Trace(EyebrowState(cfg, w, dpr), EyebrowLayers(cfg, w, h, dpr))
  {
    var e := EyebrowState(cfg, w, dpr);
    var setters := [ SetFill(Solid(cfg.textColor)), SetAlpha(0.35), SetFont(EyebrowFont(w)),
                     SetAlign(Center), SetSpacing(Em(0.25)) ];
    FiveSetters(c, SetFill(Solid(cfg.textColor)), SetAlpha(0.35), SetFont(EyebrowFont(w)),
                SetAlign(Center), SetSpacing(Em(0.25)));
    assert Exec(c, setters) == Trace(e, []);
    if StringTruthy(cfg.subText) {
      var eyebrow := FillText(ToUpperCase(cfg.subText.value), CentreX(w), SubTextY(w, h));
      ExecOne(e, eyebrow);
      ExecThen(c, setters, [eyebrow], Trace(e, []), Trace(e, Emit(e, eyebrow)));
    } else {
      assert setters + [] == setters;
    }
  }

  lemma HeadingSetupRun(c: Ctx, cfg: Config, w: nat, h: nat, dpr: real)
    requires c == EyebrowState(cfg, w, dpr)
    ensures Exec(c, HeadingSetupOps(w, h)) == Trace(HeadingState(cfg, w, h, dpr), [])
  {
    FiveSetters(c, SetAlpha(1.0), SetSpacing(Em(-0.04)), SetFont(HeadingFont(w, h)),
                SetAlign(Center), SetBaseline(Middle));
  }

  /** Drawing lines `k`, `k+1`, ... leaves the state as it was, one drawing per line. */
  lemma {:induction false} LinesRun(c: Ctx, lines: seq<string>, k: nat, x: real, y0: real, lh: real, color: string)
    requires c.fill == Solid(color) && c.alpha == 1.0
    ensures Exec(c, LineOps(lines, k, x, y0, lh, color))
         == Trace(c, seq(|lines|, i requires 0 <= i < |lines| => Draw(Text(lines[i], x, RowY(y0, lh, k + i)), c)))
    decreases |lines|
  {
    var want := seq(|lines|, i requires 0 <= i < |lines| => Draw(Text(lines[i], x, RowY(y0, lh, k + i)), c));
    if lines == [] {
    } else {
      var first := [SetFill(Solid(color)), SetAlpha(1.0), FillText(lines[0], x, RowY(y0, lh, k))];
      var rest := LineOps(lines[1..], k + 1, x, y0, lh, color);
      var tail := seq(|lines| - 1, i requires 0 <= i < |lines| - 1 => Draw(Text(lines[1..][i], x, RowY(y0, lh, k + 1 + i)), c));
      ThreeCalls(c, SetFill(Solid(color)), SetAlpha(1.0), FillText(lines[0], x, RowY(y0, lh, k)));
      assert Step(c, SetFill(Solid(color))) == c;
      assert Step(c, SetAlpha(1.0)) == c;
      assert want[0].state == c;
      assert want[0].shape == Text(lines[0], x, RowY(y0, lh, k));
      assert Exec(c, first) == Trace(c, [want[0]]);
      LinesRun(c, lines[1..], k + 1, x, y0, lh, color);
      ExecThen(c, first, rest, Trace(c, [want[0]]), Trace(c, tail));
      forall i | 0 <= i < |tail|
        ensures tail[i] == want[i + 1]
      {
        assert tail[i].shape == Text(lines[i + 1], x, RowY(y0, lh, k + 1 + i));
        assert want[i + 1].shape == Text(lines[i + 1], x, RowY(y0, lh, k + (i + 1)));
      }
      assert [want[0]] + tail == want;
    }
  }

  lemma DividerRun(c: Ctx, cfg: Config, w: nat, h: nat, dpr: real)
    requires c == HeadingState(cfg, w, h, dpr)
    ensures Exec(c, DividerOps(cfg, w, h)) == Trace(DividerState(cfg, w, h, dpr), [DividerLayer(cfg, w, h, dpr)])
  {
    ThreeCalls(c, SetAlpha(0.12), SetFill(Solid(cfg.textColor)),
      FillRect(CentreX(w) - DividerHalfWidth, DividerY(w, h, Lines(cfg)), 2.0 * DividerHalfWidth, DividerHeight));
  }

  lemma TaglineRun(c: Ctx, cfg: Config, w: nat, h: nat, dpr: real)
    requires c == DividerState(cfg, w, h, dpr)
    ensures Exec(c, TaglineOps(cfg, w, h)).draws == TaglineLayers(cfg, w, h, dpr)
  {
    if StringTruthy(cfg.tagline) {
      var t := TaglineState(cfg, w, h, dpr);
      var text := FillText(cfg.tagline.value, CentreX(w), TaglineY(w, h, Lines(cfg)));
      ThreeCalls(c, SetAlpha(0.3), SetSpacing(Em(0.02)), SetFont(TaglineFont(w)));
      ExecSnoc(c, [SetAlpha(0.3), SetSpacing(Em(0.02)), SetFont(TaglineFont(w))], text);
      assert [SetAlpha(0.3), SetSpacing(Em(0.02)), SetFont(TaglineFont(w))] + [text] == TaglineOps(cfg, w, h);
    }
  }

  /** The backdrop, the eyebrow label and the heading's state, run from a fresh context. */
  lemma PreludeRun(cfg: Config, w: nat, h: nat, dpr: real)
    ensures Exec(Initial, BackdropOps(cfg, w, h, dpr) + EyebrowOps(cfg, w, h) + HeadingSetupOps(w, h))
         == Trace(HeadingState(cfg, w, h, dpr), BackdropLayers(cfg, w, h, dpr) + EyebrowLayers(cfg, w, h, dpr))
  {
    var s0 := BackdropOps(cfg, w, h, dpr);
    var s1 := EyebrowOps(cfg, w, h);
    var afterBackdrop := BaseState(dpr).(fill := BottomWash(w, h));
    var e := EyebrowState(cfg, w, dpr);
    var l0 := BackdropLayers(cfg, w, h, dpr);
    var l1 := EyebrowLayers(cfg, w, h, dpr);
    BackdropRun(cfg, w, h, dpr);
    EyebrowRun(afterBackdrop, cfg, w, h, dpr);
    ExecThen(Initial, s0, s1, Trace(afterBackdrop, l0), Trace(e, l1));
    HeadingSetupRun(e, cfg, w, h, dpr);
    ExecThen(Initial, s0 + s1, HeadingSetupOps(w, h), Trace(e, l0 + l1), Trace(HeadingState(cfg, w, h, dpr), []));
  }

  /** The heading lines, the divider and the tagline, run from the heading's state. */
  lemma ForegroundRun(cfg: Config, w: nat, h: nat, dpr: real)
    ensures Exec(HeadingState(cfg, w, h, dpr), HeadingOps(cfg, w, h) + DividerOps(cfg, w, h) + TaglineOps(cfg, w, h)).draws
         == HeadingLayers(cfg, w, h, dpr) + [DividerLayer(cfg, w, h, dpr)] + TaglineLayers(cfg, w, h, dpr)
  {
    var hs := HeadingState(cfg, w, h, dpr);
    var ds := DividerState(cfg, w, h, dpr);
    var s3 := HeadingOps(cfg, w, h);
    var s4 := DividerOps(cfg, w, h);
    var l3 := HeadingLayers(cfg, w, h, dpr);
    var n := Lines(cfg);
    LinesRun(hs, Elements(cfg.text), 0, CentreX(w), StartY(w, h, n), LineHeight(w, h), cfg.textColor);
    var rows := seq(n, i requires 0 <= i < n => Draw(Text(Elements(cfg.text)[i], CentreX(w), RowY(StartY(w, h, n), LineHeight(w, h), 0 + i)), hs));
    assert rows == l3 by {
      forall i | 0 <= i < n
        ensures rows[i] == l3[i]
      {
        assert RowY(StartY(w, h, n), LineHeight(w, h), 0 + i) == LineY(w, h, n, i);
      }
    }
    assert Exec(hs, s3) == Trace(hs, l3);
    DividerRun(hs, cfg, w, h, dpr);
    ExecThen(hs, s3, s4, Trace(hs, l3), Trace(ds, [DividerLayer(cfg, w, h, dpr)]));
    TaglineRun(ds, cfg, w, h, dpr);
    ExecAppend(hs, s3 + s4, TaglineOps(cfg, w, h));
  }

  /**
    The calls the component makes draw exactly the reference layers: the
    imperative call sequence and the declarative plan agree drawing for
    drawing, state included.
   */
  lemma ScriptDrawsLayers(cfg: Config, env: Env)
    ensures Exec(Initial, Script(cfg, env)).draws == Layers(cfg, env)
  {
    var w, h, dpr := env.innerWidth, env.innerHeight, Dpr(env);
    var prelude := BackdropOps(cfg, w, h, dpr) + EyebrowOps(cfg, w, h) + HeadingSetupOps(w, h);
    var foreground := HeadingOps(cfg, w, h) + DividerOps(cfg, w, h) + TaglineOps(cfg, w, h);
    assert Script(cfg, env) == prelude + foreground;
    PreludeRun(cfg, w, h, dpr);
    ForegroundRun(cfg, w, h, dpr);
    ExecAppend(Initial, prelude, foreground);
  }
}

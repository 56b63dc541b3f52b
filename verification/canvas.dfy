/**
  The part of the HTML canvas 2D context that the image composer drives: a
  drawing state (transform scale, fill style, global alpha, composite
  operation, font, text alignment, baseline, letter spacing) changed by
  setter calls, and two drawing calls, `fillRect` and `fillText`, each of
  which records its primitive together with the state in force at the call.
  Rasterisation is not modelled: a drawing is the recorded primitive.
 */
module Canvas {

  /** One colour stop of a gradient: an offset in [0, 1] and a CSS colour. */
  datatype Stop = Stop(offset: real, color: string)

  /** A fill style: a CSS colour, or a radial gradient between two circles. */
  datatype Paint =
    | Solid(color: string)
    | Radial(x0: real, y0: real, r0: real, x1: real, y1: real, r1: real, stops: seq<Stop>)

  datatype Composite = SourceOver | Multiply

  /** The font-family lists the composer uses; `SansSerif` is the context's default. */
  datatype Family = SansSerif | DisplayStack | TextStack

  /** A CSS font: numeric weight, size in CSS pixels, family list. */
  datatype Font = Font(weight: nat, size: real, family: Family)

  datatype Align = Start | Center

  datatype Baseline = Alphabetic | Middle

  /** A `letterSpacing` value in pixels or in ems of the current font. */
  datatype Spacing = Px(px: real) | Em(em: real)

  /** The drawing state of a 2D context. */
  datatype Ctx = Ctx(
    scale: real,
    fill: Paint,
    alpha: real,
    composite: Composite,
    font: Font,
    align: Align,
    baseline: Baseline,
    spacing: Spacing)

  /**
    The state of a freshly obtained context: identity transform, black fill,
    opaque, source-over, "10px sans-serif", start-aligned, alphabetic
    baseline, no extra letter spacing.
   */
  const Initial: Ctx := Ctx(1.0, Solid("#000000"), 1.0, SourceOver, Font(400, 10.0, SansSerif), Start, Alphabetic, Px(0.0))

  /** A call on the context. */
  datatype Op =
    | Scale(factor: real)
    | SetFill(paint: Paint)
    | SetAlpha(a: real)
    | SetComposite(op: Composite)
    | SetFont(font: Font)
    | SetAlign(align: Align)
    | SetBaseline(baseline: Baseline)
    | SetSpacing(spacing: Spacing)
    | FillRect(x: real, y: real, width: real, height: real)
    | FillText(text: string, x: real, y: real)

  /** The primitive a drawing call leaves on the surface, in CSS-pixel coordinates. */
  datatype Shape =
    | Rect(x: real, y: real, width: real, height: real)
    | Text(text: string, x: real, y: real)

  /** One drawing: its primitive and the state it was drawn with. */
  datatype Draw = Draw(shape: Shape, state: Ctx)

  /** What a run of calls leaves behind: the final state and the drawings in call order. */
  datatype Trace = Trace(state: Ctx, draws: seq<Draw>)

  predicate IsDrawing(op: Op) {
    op.FillRect? || op.FillText?
  }

  /**
    The state after one call. `scale(f, f)` multiplies the current scale;
    a `globalAlpha` outside [0, 1] is ignored, as the canvas does; drawing
    calls change nothing.
   */
  function Step(c: Ctx, op: Op): Ctx
  {
    match op
    case Scale(f) => c.(scale := c.scale * f)
    case SetFill(p) => c.(fill := p)
    case SetAlpha(a) => if 0.0 <= a <= 1.0 then c.(alpha := a) else c
    case SetComposite(k) => c.(composite := k)
    case SetFont(f) => c.(font := f)
    case SetAlign(a) => c.(align := a)
    case SetBaseline(b) => c.(baseline := b)
    case SetSpacing(s) => c.(spacing := s)
    case FillRect(x, y, wd, ht) => c
    case FillText(t, x, y) => c
  }

  /** The drawings one call leaves: one for a drawing call, none for a setter. */
  function Emit(c: Ctx, op: Op): (ds: seq<Draw>)
    ensures |ds| == (if IsDrawing(op) then 1 else 0)
    ensures forall d :: d in ds ==> d.state == c
  {
    match op
    case FillRect(x, y, wd, ht) => [Draw(Rect(x, y, wd, ht), c)]
    case FillText(t, x, y) => [Draw(Text(t, x, y), c)]
    case _ => []
  }

  /** Runs a sequence of calls from state `c`. */
  function Exec(c: Ctx, ops: seq<Op>): (t: Trace)
    decreases |ops|
  {
    if ops == [] then Trace(c, [])
    else
      var rest := Exec(Step(c, ops[0]), ops[1..]);
      Trace(rest.state, Emit(c, ops[0]) + rest.draws)
  }

  /** Running `a + b` is running `a`, then running `b` from where `a` left off. */
  lemma {:induction false} ExecAppend(c: Ctx, a: seq<Op>, b: seq<Op>)
    ensures Exec(c, a + b).state == Exec(Exec(c, a).state, b).state
    ensures Exec(c, a + b).draws == Exec(c, a).draws + Exec(Exec(c, a).state, b).draws
    decreases |a|
  {
    if a == [] {
      assert a + b == b;
    } else {
      assert (a + b)[0] == a[0];
      assert (a + b)[1..] == a[1..] + b;
      ExecAppend(Step(c, a[0]), a[1..], b);
    }
  }

  /** Running a single call. */
  lemma ExecOne(c: Ctx, op: Op)
    ensures Exec(c, [op]) == Trace(Step(c, op), Emit(c, op))
  {
    assert [op][1..] == [];
  }

  /** `ExecAppend` for traces already known: chains two runs into one. */
  lemma ExecThen(c: Ctx, a: seq<Op>, b: seq<Op>, ta: Trace, tb: Trace)
    requires Exec(c, a) == ta && Exec(ta.state, b) == tb
    ensures Exec(c, a + b) == Trace(tb.state, ta.draws + tb.draws)
  {
    ExecAppend(c, a, b);
  }

  /** Three runs chained: `a`, then `b` from where `a` left off, then `d`. */
  lemma ExecThen3(c: Ctx, a: seq<Op>, b: seq<Op>, d: seq<Op>, ta: Trace, tb: Trace, td: Trace)
    requires Exec(c, a) == ta && Exec(ta.state, b) == tb && Exec(tb.state, d) == td
    ensures Exec(c, a + b + d) == Trace(td.state, ta.draws + tb.draws + td.draws)
  {
    ExecAppend(c, a, b);
    ExecAppend(c, a + b, d);
  }

  /** Running one more call after `ops`. */
  lemma ExecSnoc(c: Ctx, ops: seq<Op>, op: Op)
    ensures Exec(c, ops + [op]) == Trace(Step(Exec(c, ops).state, op), Exec(c, ops).draws + Emit(Exec(c, ops).state, op))
  {
    ExecAppend(c, ops, [op]);
    ExecOne(Exec(c, ops).state, op);
  }

  /** Running a setter and then a drawing call. */
  lemma ExecTwo(c: Ctx, setter: Op, drawing: Op)
    ensures Exec(c, [setter, drawing]) == Trace(Step(Step(c, setter), drawing), Emit(c, setter) + Emit(Step(c, setter), drawing))
  {
    assert [setter, drawing][1..] == [drawing];
    ExecOne(Step(c, setter), drawing);
  }
}

/** The window, crop and limit planning of `imshowz`
    (dataproc/core/misc_graph.py:298-358), on the shape of the image rather
    than its pixels. The result is the plan the source hands to matplotlib:
    how the data is rotated and cropped, the contrast, the extent, and the
    limits and output flags passed on to `set_plot_props`. */
module ImagePlan {
  import opened Outcome
  import PlotProps

  /** `data.shape == (rows, cols)`: axis 0 is y, axis 1 is x. */
  datatype Shape = Shape(rows: nat, cols: nat)

  /** A two-element limit list `[lo, hi]` along one axis, in pixels. */
  datatype Window = Window(lo: int, hi: int)

  /** The `extent` list `[left, right, bottom, top]` given to `imshow`. */
  datatype Extent = Extent(left: int, right: int, bottom: int, top: int)

  /** The contrast limits: `minmax` as given, or zscale over the data handed to `imshow`. */
  datatype Contrast = Given(vmin: real, vmax: real) | ZScale

  /** The options of `imshowz` that the planning reads. */
  datatype ImshowOptions = ImshowOptions(
    minmax: Option<(real, real)>,
    xlim: Option<Window>,
    ylim: Option<Window>,
    cxy: Option<(int, int)>,
    plotRad: Option<int>,
    rotate: int,
    invertx: bool,
    inverty: bool,
    trimData: bool,
    extent: Option<Extent>,
    interactive: bool,
    save: Option<string>,
    show: Option<bool>,
    close: bool)

  /** The data handed to `imshow` and the window it is shown in. */
  datatype View = View(
    shape: Shape,                     // shape of the data handed to imshow
    crop: Option<(Window, Window)>,   // data[y.lo:y.hi, x.lo:x.hi] after rotating, as (x, y)
    xwin: Window,                     // the window the default extent is taken from
    ywin: Window)

  /** What `imshowz` does with the image once the options are checked. */
  datatype Plan = Plan(
    turns: int,                       // np.rot90(data, turns)
    view: View,
    contrast: Contrast,
    extent: Extent,
    xlim: Window,                     // the limits passed on to set_plot_props
    ylim: Window,
    show: bool,
    save: Option<string>,
    close: bool,
    interactive: bool)

  // ----- rotation: np.rot90 on the shape -----

  /** One quarter-turn exchanges the two axes. */
  function QuarterTurn(s: Shape): Shape
  {
    Shape(s.cols, s.rows)
  }

  /** `k` quarter-turns, one after the other. */
  function Turned(s: Shape, k: nat): Shape
  {
    if k == 0 then s else QuarterTurn(Turned(s, k - 1))
  }

  /** `np.rot90(data, k).shape`: numpy first reduces `k` modulo 4. */
  function Rot90(s: Shape, k: int): Shape
  {
    Turned(s, k % 4)
  }

  lemma {:induction false} TurnedParity(s: Shape, k: nat)
    ensures Turned(s, k) == if k % 2 == 0 then s else QuarterTurn(s)
  {
    if k > 0 {
      TurnedParity(s, k - 1);
    }
  }

  /** An odd number of quarter-turns, negative ones included, exchanges
      height and width; an even number keeps the shape. */
  lemma Rot90Parity(s: Shape, k: int)
    ensures Rot90(s, k) == if k % 2 == 0 then s else QuarterTurn(s)
  {
    TurnedParity(s, k % 4);
    assert (k % 4) % 2 == k % 2;
  }

  /** Rotating twice is rotating by the sum of the turns. */
  lemma Rot90Compose(s: Shape, a: int, b: int)
    ensures Rot90(Rot90(s, a), b) == Rot90(s, a + b)
  {
    Rot90Parity(s, a);
    Rot90Parity(Rot90(s, a), b);
    Rot90Parity(s, a + b);
  }

  // ----- the centre + radius window (lines 324-334) -----

  /** Python's `min` over a non-empty list. */
  function MinOf(xs: seq<int>): (m: int)
    requires |xs| > 0
    ensures m in xs
    ensures forall i :: 0 <= i < |xs| ==> m <= xs[i]
  {
    if |xs| == 1 then xs[0]
    else
      var rest := MinOf(xs[1..]);
      if xs[0] <= rest then xs[0] else rest
  }

  /** Lines 325-326: the distances from the centre to the right, left, top and bottom borders. */
  function BorderDistances(s: Shape, cx: int, cy: int): seq<int>
  {
    [s.cols - cx, cx, s.rows - cy, cy]
  }

  /** Line 328: the radius used when `plot_rad` is None. */
  function DefaultRadius(s: Shape, cx: int, cy: int): (rad: int)
    ensures rad <= s.cols - cx && rad <= cx && rad <= s.rows - cy && rad <= cy
    ensures rad == s.cols - cx || rad == cx || rad == s.rows - cy || rad == cy
  {
    var d := BorderDistances(s, cx, cy);
    var m := MinOf(d);
    assert m <= d[0] && m <= d[1] && m <= d[2] && m <= d[3];
    m
  }

  /** Python's `x *= flag`: a bool multiplies as 0 or 1. */
  function TimesBool(x: int, flag: bool): int
  {
    x * (if flag then 1 else 0)
  }

  /** Python's `cond and a or b`: when `a` is falsy (0) it falls through to `b`. */
  function AndOr(cond: bool, a: int, b: int): int
  {
    if cond && a != 0 then a else b
  }

  function Max(a: int, b: int): int { if a < b then b else a }
  function Min(a: int, b: int): int { if a < b then a else b }

  /** The intended clamp of the centre window `[c - rad, c + rad]` into `[0, n]`:
      the lower end only raised to 0, the upper end only lowered to n. */
  function CentreWindow(c: int, rad: int, n: nat): (w: Window)
    ensures 0 <= w.lo && w.hi <= n
    ensures w.lo >= c - rad && (w.lo == c - rad || w.lo == 0)
    ensures w.hi <= c + rad && (w.hi == c + rad || w.hi == n)
    ensures 0 <= c <= n && rad >= 0 ==> w.lo <= c <= w.hi
  {
    Window(Max(c - rad, 0), Min(c + rad, n))
  }

  /** The source's clamp, `lo *= lo > 0` and `hi = (hi > n) and n or hi`,
      is that clamp on every non-empty axis. */
  lemma PythonClampIsCentreWindow(c: int, rad: int, n: nat)
    requires n > 0
    ensures Window(TimesBool(c - rad, c - rad > 0), AndOr(c + rad > n, n, c + rad)) == CentreWindow(c, rad, n)
  {
  }

  /** On an empty axis the `and/or` idiom falls through: the upper end is not lowered to 0. */
  lemma EmptyAxisUpperNotClamped(c: int, rad: int)
    requires c + rad > 0
    ensures AndOr(c + rad > 0, 0, c + rad) == c + rad
  {
  }

  /** With the centre inside the image and the default radius, the window
      already lies inside the image: clamping changes nothing. */
  lemma DefaultRadiusNeedsNoClamp(s: Shape, cx: int, cy: int)
    requires 0 <= cx <= s.cols && 0 <= cy <= s.rows
    ensures var rad := DefaultRadius(s, cx, cy);
      rad >= 0 &&
      CentreWindow(cx, rad, s.cols) == Window(cx - rad, cx + rad) &&
      CentreWindow(cy, rad, s.rows) == Window(cy - rad, cy + rad)
  {
  }

  /** A centre on the left border (`cx = 0`) gets the default radius 0 and
      the x window `[0, 0]`, so the window bounds are not strictly ordered in
      general. */
  lemma CentreOnBorderIsEmpty(s: Shape, cy: int)
    requires 0 <= cy <= s.rows
    ensures DefaultRadius(s, 0, cy) == 0
    ensures CentreWindow(0, DefaultRadius(s, 0, cy), s.cols) == Window(0, 0)
  {
  }

  // ----- trimming (lines 336-340) -----

  /** Where a slice bound lands on an axis of length n: negative bounds count
      from the end, and both are clipped to `[0, n]`. */
  function SliceBound(i: int, n: nat): (b: nat)
    ensures b <= n
    ensures 0 <= i <= n ==> b == i
    ensures i > n ==> b == n
    ensures -(n as int) <= i < 0 ==> b == i + n
    ensures i < -(n as int) ==> b == 0
  {
    if i < 0 then (if i + n < 0 then 0 else i + n) else if i > n then n else i
  }

  /** `len(range(n)[lo:hi])`: the length of a Python slice with step 1. */
  function SliceLen(n: nat, lo: int, hi: int): (len: nat)
    ensures len <= n
    ensures 0 <= lo <= hi <= n ==> len == hi - lo
    ensures 0 <= hi <= lo ==> len == 0
    ensures 0 <= lo && 0 <= hi ==> len == Max(0, Min(hi, n) - Min(lo, n))
  {
    var a, b := SliceBound(lo, n), SliceBound(hi, n);
    if b > a then b - a else 0
  }

  /** With the default radius around a centre inside the image, trimming
      keeps a square of side twice the radius. */
  lemma TrimmedDefaultIsSquare(s: Shape, cx: int, cy: int)
    requires 0 <= cx <= s.cols && 0 <= cy <= s.rows
    ensures var rad := DefaultRadius(s, cx, cy);
      SliceLen(s.cols, cx - rad, cx + rad) == 2 * rad &&
      SliceLen(s.rows, cy - rad, cy + rad) == 2 * rad
  {
  }

  // ----- the planner -----

  /** The centre window: `[c - rad, c + rad]` on each axis of `s`, clamped
      into the axis when it is not empty, only raised to 0 when it is. */
  predicate CentredOn(w: (Window, Window), s: Shape, c: (int, int), rad: int)
  {
    (s.cols > 0 ==> w.0 == CentreWindow(c.0, rad, s.cols)) &&
    (s.rows > 0 ==> w.1 == CentreWindow(c.1, rad, s.rows)) &&
    (s.cols == 0 ==> w.0 == Window(Max(c.0 - rad, 0), c.0 + rad)) &&
    (s.rows == 0 ==> w.1 == Window(Max(c.1 - rad, 0), c.1 + rad))
  }

  /** Lines 324-334: the window `[c - rad, c + rad]` on each axis, clamped
      with the source's idioms; `rad` is `plot_rad`, or the distance to the
      nearest border when that is None. */
  method CentreLimits(s: Shape, cx: int, cy: int, plotRad: Option<int>) returns (xlim: Window, ylim: Window)
    ensures CentredOn((xlim, ylim), s, (cx, cy), if plotRad.Some? then plotRad.value else DefaultRadius(s, cx, cy))
    ensures plotRad.None? && 0 <= cx <= s.cols && 0 <= cy <= s.rows ==>
      var rad := DefaultRadius(s, cx, cy);
      xlim == Window(cx - rad, cx + rad) && ylim == Window(cy - rad, cy + rad)
  {
    var rad := if plotRad.Some? then plotRad.value else MinOf(BorderDistances(s, cx, cy));
    xlim := Window(cx - rad, cx + rad);
    ylim := Window(cy - rad, cy + rad);
    xlim := xlim.(lo := TimesBool(xlim.lo, xlim.lo > 0));
    xlim := xlim.(hi := AndOr(xlim.hi > s.cols, s.cols, xlim.hi));
    ylim := ylim.(lo := TimesBool(ylim.lo, ylim.lo > 0));
    ylim := ylim.(hi := AndOr(ylim.hi > s.rows, s.rows, ylim.hi));
    if s.cols > 0 { PythonClampIsCentreWindow(cx, rad, s.cols); }
    if s.rows > 0 { PythonClampIsCentreWindow(cy, rad, s.rows); }
    if plotRad.None? && 0 <= cx <= s.cols && 0 <= cy <= s.rows {
      DefaultRadiusNeedsNoClamp(s, cx, cy);
    }
  }

  /** The radius used around the centre `cxy` on the (rotated) data. */
  function Radius(o: ImshowOptions, s: Shape): int
    requires o.cxy.Some?
  {
    if o.plotRad.Some? then o.plotRad.value else DefaultRadius(s, o.cxy.value.0, o.cxy.value.1)
  }

  /** The window before trimming: the crop when trimming, the final window otherwise. */
  function Before(v: View): (Window, Window)
  {
    if v.crop.Some? then v.crop.value else (v.xwin, v.ywin)
  }

  /** Lines 312-340 as a specification: the default window comes from the
      unrotated shape, the centre window (which replaces any xlim/ylim) from
      the rotated one; trimming slices the rotated data to the window and
      resets the window to `[0, size - 1]`. */
  predicate ViewPlanned(data: Shape, o: ImshowOptions, v: View)
  {
    var rot := Rot90(data, o.rotate / 90);
    && (v.crop.Some? <==> o.trimData)
    && (!o.trimData ==> v.shape == rot)
    && (o.trimData ==>
          v.shape == Shape(SliceLen(rot.rows, v.crop.value.1.lo, v.crop.value.1.hi),
                           SliceLen(rot.cols, v.crop.value.0.lo, v.crop.value.0.hi)) &&
          v.xwin == Window(0, v.shape.cols - 1) && v.ywin == Window(0, v.shape.rows - 1))
    && (o.cxy.None? ==>
          Before(v).0 == (if o.xlim.Some? then o.xlim.value else Window(0, data.cols)) &&
          Before(v).1 == (if o.ylim.Some? then o.ylim.value else Window(0, data.rows)))
    && (o.cxy.Some? ==> CentredOn(Before(v), rot, o.cxy.value, Radius(o, rot)))
  }

  /** Lines 312-340 once the rotation is known to be valid. */
  method PlanView(data: Shape, o: ImshowOptions) returns (v: View)
    requires o.rotate % 90 == 0
    ensures ViewPlanned(data, o, v)
  {
    var xlim := if o.xlim.Some? then o.xlim.value else Window(0, data.cols);
    var ylim := if o.ylim.Some? then o.ylim.value else Window(0, data.rows);

    var shape := data;
    if o.rotate != 0 {
      shape := Rot90(shape, o.rotate / 90);
    }

    if o.cxy.Some? {
      xlim, ylim := CentreLimits(shape, o.cxy.value.0, o.cxy.value.1, o.plotRad);
    }

    var crop: Option<(Window, Window)> := None;
    if o.trimData {
      crop := Some((xlim, ylim));
      shape := Shape(SliceLen(shape.rows, ylim.lo, ylim.hi), SliceLen(shape.cols, xlim.lo, xlim.hi));
      xlim := Window(0, shape.cols - 1);
      ylim := Window(0, shape.rows - 1);
    }
    v := View(shape, crop, xlim, ylim);
  }

  /** Line 307: `extent` together with both `xlim` and `ylim`, as the caller passed them. */
  predicate Conflicting(o: ImshowOptions)
  {
    o.extent.Some? && o.xlim.Some? && o.ylim.Some?
  }

  /** `xlim[::-1]` on a two-element list. */
  function Flip(w: Window): Window
  {
    Window(w.hi, w.lo)
  }

  /** `imshowz` from `show is None` (line 298) to the inverted limits (line 358). */
  method PlanImshow(data: Shape, o: ImshowOptions) returns (r: Result<Plan>)
    // the two errors, the extent conflict first
    ensures r.Err? <==> Conflicting(o) || o.rotate % 90 != 0
    ensures r.Err? ==> r.error == if Conflicting(o) then ConflictingExtent else InvalidRotation(o.rotate)
    // show/save: the `show` default, then `interactive` overrides both
    ensures r.Ok? ==>
      r.value.show == (!o.interactive && PlotProps.EffectiveShow(o.show, o.save)) &&
      r.value.save == (if o.interactive then None else o.save) &&
      r.value.close == o.close && r.value.interactive == o.interactive
    // rotation by rotate/90 quarter-turns, the window and the crop, the contrast
    ensures r.Ok? ==> r.value.turns == o.rotate / 90 && ViewPlanned(data, o, r.value.view)
    ensures r.Ok? ==> r.value.contrast == if o.minmax.Some? then Given(o.minmax.value.0, o.minmax.value.1) else ZScale
    // extent fixed before the inversion, which only affects the limits passed on
    ensures r.Ok? && o.extent.Some? ==> r.value.extent == o.extent.value
    ensures r.Ok? && o.extent.None? ==>
      r.value.extent == Extent(r.value.view.xwin.lo, r.value.view.xwin.hi, r.value.view.ywin.lo, r.value.view.ywin.hi)
    ensures r.Ok? ==> r.value.xlim == if o.invertx then Flip(r.value.view.xwin) else r.value.view.xwin
    ensures r.Ok? ==> r.value.ylim == if o.inverty then Flip(r.value.view.ywin) else r.value.view.ywin
  {
    var show := if o.show.None? then o.save.None? else o.show.value;
    var save := o.save;
    if o.interactive {
      show := false;
      save := None;
    }

    if o.extent.Some? && o.xlim.Some? && o.ylim.Some? {
      return Err(ConflictingExtent);
    }
    var turns := 0;
    if o.rotate != 0 {
      if o.rotate % 90 != 0 {
        return Err(InvalidRotation(o.rotate));
      }
      turns := o.rotate / 90;
    }
    var view := PlanView(data, o);

    var contrast := if o.minmax.Some? then Given(o.minmax.value.0, o.minmax.value.1) else ZScale;

    var xlim, ylim := view.xwin, view.ywin;
    var extent := if o.extent.Some? then o.extent.value else Extent(xlim.lo, xlim.hi, ylim.lo, ylim.hi);
    if o.invertx {
      xlim := Window(xlim.hi, xlim.lo);
    }
    if o.inverty {
      ylim := Window(ylim.hi, ylim.lo);
    }

    r := Ok(Plan(turns, view, contrast, extent, xlim, ylim, show, save, o.close, o.interactive));
  }

  // ----- properties of the planned view -----

  /** A centre window on a non-empty image never leaves it. */
  lemma CentredViewInsideImage(data: Shape, o: ImshowOptions, v: View)
    requires ViewPlanned(data, o, v) && o.cxy.Some?
    requires Rot90(data, o.rotate / 90).cols > 0 && Rot90(data, o.rotate / 90).rows > 0
    ensures var rot := Rot90(data, o.rotate / 90);
      0 <= Before(v).0.lo && Before(v).0.hi <= rot.cols &&
      0 <= Before(v).1.lo && Before(v).1.hi <= rot.rows
  {
  }

  /** A centre inside the image with a non-negative radius gives ordered bounds. */
  lemma CentredViewOrdered(data: Shape, o: ImshowOptions, v: View)
    requires ViewPlanned(data, o, v) && o.cxy.Some?
    requires var rot := Rot90(data, o.rotate / 90);
      0 <= o.cxy.value.0 <= rot.cols && 0 <= o.cxy.value.1 <= rot.rows && Radius(o, rot) >= 0
    ensures Before(v).0.lo <= Before(v).0.hi && Before(v).1.lo <= Before(v).1.hi
  {
  }

  /** Trimming to the default centre window keeps a square of side twice the
      radius, shown in the window `[0, 2 rad - 1]` on both axes. */
  lemma CentredTrimIsSquare(data: Shape, o: ImshowOptions, v: View)
    requires ViewPlanned(data, o, v) && o.cxy.Some? && o.plotRad.None? && o.trimData
    requires var rot := Rot90(data, o.rotate / 90);
      0 <= o.cxy.value.0 <= rot.cols && 0 <= o.cxy.value.1 <= rot.rows
    ensures var rad := Radius(o, Rot90(data, o.rotate / 90));
      v.shape == Shape(2 * rad, 2 * rad) && v.xwin == v.ywin == Window(0, 2 * rad - 1)
  {
    var rot := Rot90(data, o.rotate / 90);
    var (cx, cy) := o.cxy.value;
    DefaultRadiusNeedsNoClamp(rot, cx, cy);
    TrimmedDefaultIsSquare(rot, cx, cy);
  }

  /** The default window is the unrotated shape's: an odd rotation without
      `cxy` or trimming leaves the window `[0, W] x [0, H]` on data of shape (W, H). */
  lemma DefaultWindowNotRotated(data: Shape, o: ImshowOptions, v: View)
    requires ViewPlanned(data, o, v) && o.cxy.None? && !o.trimData
    requires o.xlim.None? && o.ylim.None? && (o.rotate / 90) % 2 == 1
    ensures v.shape == Shape(data.cols, data.rows)
    ensures v.xwin == Window(0, data.cols) && v.ywin == Window(0, data.rows)
  {
    Rot90Parity(data, o.rotate / 90);
  }

  // ----- handing over to set_plot_props (lines 367-373) -----

  /** `kwargs |= {'xlim': ..., 'ylim': ..., 'save': ..., 'show': ..., 'close': ...}`:
      the plan's limits and output flags replace those keys of the caller's
      remaining options. */
  function Decoration(p: Plan, rest: PlotProps.PropsOptions): (d: PlotProps.PropsOptions)
    ensures d.xlim == Some(PlotProps.Between(p.xlim.lo as real, p.xlim.hi as real))
    ensures d.ylim == Some(PlotProps.Between(p.ylim.lo as real, p.ylim.hi as real))
    ensures d.save == p.save && d.show == Some(p.show) && d.close == p.close
    ensures d.title == rest.title && d.legend == rest.legend && d.axMethod == rest.axMethod && d.vspan == rest.vspan
    ensures d.xlabel == rest.xlabel && d.ylabel == rest.ylabel && d.fillBetween == rest.fillBetween
  {
    rest.(xlim := Some(PlotProps.Between(p.xlim.lo as real, p.xlim.hi as real)),
          ylim := Some(PlotProps.Between(p.ylim.lo as real, p.ylim.hi as real)),
          save := p.save, show := Some(p.show), close := p.close)
  }

  /** `imshowz` always passes a definite `show`, so the default of
      `set_plot_props` never applies: the figure is shown exactly when the
      plan says so, and an interactive plan is neither shown nor saved. */
  lemma PlanDecidesShowAndSave(p: Plan, rest: PlotProps.PropsOptions)
    requires p.interactive ==> !p.show && p.save.None?
    ensures PlotProps.ShowFigure in PlotProps.Finishing(Decoration(p, rest)) <==> p.show
    ensures p.interactive ==> forall c :: c in PlotProps.Finishing(Decoration(p, rest)) ==> !c.SaveFigure? && c != PlotProps.ShowFigure
  {
    var d := Decoration(p, rest);
    PlotProps.ShowOnlyAtTheEnd(d);
    PlotProps.OnlySavePartSaves(d);
  }
}

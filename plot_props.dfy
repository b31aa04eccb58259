/** The decoration step `set_plot_props` (dataproc/core/misc_graph.py:66-116),
    with the drawing calls on the axes replaced by an ordered list of abstract
    commands. The caller's `ax_method` and `legend` dicts are updated in place
    by the source; the method below returns them as they are left. */
module PlotProps {
  import opened Outcome

  /** A keyword-argument value. */
  datatype Value = Int(i: int) | Real(x: real) | Text(s: string) | Flag(b: bool)

  type Kwargs = map<string, Value>

  /** One `ax_method` value: a single keyword dict, or a list of them. */
  datatype MethodArg = Single(kw: Kwargs) | Batch(kws: seq<Kwargs>)

  /** `ax_method`: a dict from axes-method name to its arguments, in insertion order. */
  type AxMethods = seq<(string, MethodArg)>

  /** A limit argument: a single number v (meaning [0, v]) or a pair. */
  datatype Limit = UpTo(v: real) | Between(lo: real, hi: real)

  datatype PropsOptions = PropsOptions(
    xlim: Option<Limit>,
    ylim: Option<Limit>,
    legend: Option<Kwargs>,
    save: Option<string>,
    show: Option<bool>,
    close: bool,
    title: Option<string>,
    fillBetween: Option<Kwargs>,
    xlabel: Option<string>,
    ylabel: Option<string>,
    axMethod: Option<AxMethods>,
    vspan: Option<(real, real)>)

  /** What `set_plot_props` asks of the axes, the figure and pyplot. */
  datatype Command =
    | CallMethod(name: string, kw: Kwargs)   // getattr(ax, name)(**kw)
    | FillBetween(kw: Kwargs)                // dp.fill_between(ax, **kw)
    | SetTitle(title: Option<string>)
    | SetXLabel(xlabel: Option<string>)
    | SetYLabel(ylabel: Option<string>)
    | ShowLegend(legend: Kwargs)
    | SetXLim(xlo: real, xhi: real)
    | SetYLim(ylo: real, yhi: real)
    | TightLayout
    | SaveFigure(path: string)
    | ShowFigure
    | CloseFigure

  // ----- the `ax_method` dict -----

  predicate HasKey(d: AxMethods, k: string)
  {
    exists i :: 0 <= i < |d| && d[i].0 == k
  }

  /** Python dicts hold each key once. */
  predicate UniqueKeys(d: AxMethods)
  {
    forall i, j :: 0 <= i < j < |d| ==> d[i].0 != d[j].0
  }

  /** `d[k] = v`: an existing key keeps its place and gets the new value, a
      new key is appended; every other entry is untouched. */
  function Assign(d: AxMethods, k: string, v: MethodArg): (d': AxMethods)
    ensures HasKey(d, k) ==> |d'| == |d|
    ensures !HasKey(d, k) ==> d' == d + [(k, v)]
    ensures forall i :: 0 <= i < |d| && d[i].0 != k ==> d'[i] == d[i]
    ensures forall i :: 0 <= i < |d| && d[i].0 == k ==> d'[i] == (k, v)
    ensures exists i :: 0 <= i < |d'| && d'[i] == (k, v)
    ensures UniqueKeys(d) ==> UniqueKeys(d')
  {
    if HasKey(d, k) then seq(|d|, i requires 0 <= i < |d| => if d[i].0 == k then (k, v) else d[i])
    else
      var d' := d + [(k, v)];
      assert d'[|d|] == (k, v);
      d'
  }

  // ----- lines 75-83: `vspan` and the `ax_method` dispatch -----

  /** The keyword arguments `{'xmin': vspan[0], 'xmax': vspan[1]}`. */
  function VspanKwargs(vspan: (real, real)): Kwargs
  {
    map["xmin" := Real(vspan.0), "xmax" := Real(vspan.1)]
  }

  /** Lines 77-78. The guard looks for the key 'vspan', while the entry it
      writes is 'axvspan'. */
  function WithVspan(d: AxMethods, vspan: Option<(real, real)>): (d': AxMethods)
    ensures vspan.None? || HasKey(d, "vspan") ==> d' == d
    ensures vspan.Some? && !HasKey(d, "vspan") && !HasKey(d, "axvspan") ==>
      d' == d + [("axvspan", Single(VspanKwargs(vspan.value)))]
    ensures vspan.Some? && !HasKey(d, "vspan") && HasKey(d, "axvspan") ==>
      |d'| == |d| &&
      (forall i :: 0 <= i < |d| && d[i].0 != "axvspan" ==> d'[i] == d[i]) &&
      forall i :: 0 <= i < |d| && d[i].0 == "axvspan" ==> d'[i] == ("axvspan", Single(VspanKwargs(vspan.value)))
    ensures vspan.Some? && !HasKey(d, "vspan") ==>
      exists i :: 0 <= i < |d'| && d'[i] == ("axvspan", Single(VspanKwargs(vspan.value)))
    ensures UniqueKeys(d) ==> UniqueKeys(d')
  {
    if vspan.Some? && !HasKey(d, "vspan") then Assign(d, "axvspan", Single(VspanKwargs(vspan.value)))
    else d
  }

  /** Lines 80-81: a value that is not a list is wrapped into a one-element list. */
  function AsList(a: MethodArg): seq<Kwargs>
  {
    match a
    case Single(kw) => [kw]
    case Batch(kws) => kws
  }

  /** The calls made for one entry, one per keyword dict, in list order. */
  function CallsFor(name: string, a: MethodArg): seq<Command>
  {
    seq(|AsList(a)|, j requires 0 <= j < |AsList(a)| => CallMethod(name, AsList(a)[j]))
  }

  /** The calls made for the whole dict, entry after entry in insertion order. */
  function MethodCalls(d: AxMethods): seq<Command>
  {
    if |d| == 0 then [] else MethodCalls(d[..|d| - 1]) + CallsFor(d[|d| - 1].0, d[|d| - 1].1)
  }

  /** Dispatching one more entry adds that entry's calls at the end. */
  lemma MethodCallsSnoc(d: AxMethods, i: nat)
    requires i < |d|
    ensures MethodCalls(d[..i + 1]) == MethodCalls(d[..i]) + CallsFor(d[i].0, d[i].1)
  {
    assert d[..i + 1][..i] == d[..i];
  }

  // ----- lines 87-116 -----

  /** Lines 87-88: `show` left at None means "show exactly when not saving". */
  function EffectiveShow(show: Option<bool>, save: Option<string>): bool
  {
    if show.None? then save.None? else show.value
  }

  /** Lines 95-96: `legend['loc']` defaults to 1; nothing else changes. */
  function WithDefaultLoc(legend: Kwargs): Kwargs
  {
    if "loc" !in legend then legend["loc" := Int(1)] else legend
  }

  /** Lines 99-108: a single number v stands for the pair [0, v]. */
  function Bounds(l: Limit): (real, real)
  {
    match l
    case UpTo(v) => (0.0, v)
    case Between(lo, hi) => (lo, hi)
  }

  function FillPart(o: PropsOptions): seq<Command>
  {
    if o.fillBetween.Some? then [FillBetween(o.fillBetween.value)] else []
  }

  function LabelPart(o: PropsOptions): seq<Command>
  {
    [SetTitle(o.title), SetXLabel(o.xlabel), SetYLabel(o.ylabel)]
  }

  function LegendPart(o: PropsOptions): seq<Command>
  {
    if o.legend.Some? then [ShowLegend(WithDefaultLoc(o.legend.value))] else []
  }

  function XLimPart(o: PropsOptions): seq<Command>
  {
    if o.xlim.Some? then [SetXLim(Bounds(o.xlim.value).0, Bounds(o.xlim.value).1)] else []
  }

  function YLimPart(o: PropsOptions): seq<Command>
  {
    if o.ylim.Some? then [SetYLim(Bounds(o.ylim.value).0, Bounds(o.ylim.value).1)] else []
  }

  function SavePart(o: PropsOptions): seq<Command>
  {
    if o.save.Some? then [SaveFigure(o.save.value)] else []
  }

  function ShowPart(o: PropsOptions): seq<Command>
  {
    if EffectiveShow(o.show, o.save) then [ShowFigure] else []
  }

  function ClosePart(o: PropsOptions): seq<Command>
  {
    if o.close then [CloseFigure] else []
  }

  /** Everything after the `ax_method` dispatch, in the order the source issues it:
      the `fill_between` band, the labels, the legend, the limits, then layout,
      save, show and close. */
  function Finishing(o: PropsOptions): seq<Command>
  {
    FillPart(o) + LabelPart(o) + LegendPart(o) + XLimPart(o) + YLimPart(o) + [TightLayout]
    + SavePart(o) + ShowPart(o) + ClosePart(o)
  }

  /** The entries dispatched: the caller's dict (or a fresh empty one) after the `vspan` merge. */
  function Dispatched(o: PropsOptions): AxMethods
  {
    WithVspan(if o.axMethod.Some? then o.axMethod.value else [], o.vspan)
  }

  /** Lines 79-83: call `getattr(ax, method)(**kw)` for every keyword dict of
      every entry, entries in insertion order. */
  method Dispatch(d: AxMethods) returns (cmds: seq<Command>)
    ensures cmds == MethodCalls(d)
  {
    cmds := [];
    var i := 0;
    while i < |d|
      invariant 0 <= i <= |d|
      invariant cmds == MethodCalls(d[..i])
    {
      var name, arg := d[i].0, d[i].1;
      var kws := if arg.Batch? then arg.kws else [arg.kw];
      ghost var calls := CallsFor(name, arg);
      assert |calls| == |kws|;
      var j := 0;
      while j < |kws|
        invariant 0 <= j <= |kws|
        invariant cmds == MethodCalls(d[..i]) + calls[..j]
      {
        assert calls[..j + 1] == calls[..j] + [CallMethod(name, kws[j])];
        cmds := cmds + [CallMethod(name, kws[j])];
        j := j + 1;
      }
      assert calls[..j] == calls;
      MethodCallsSnoc(d, i);
      i := i + 1;
    }
    assert d[..i] == d;
  }

  /** `set_plot_props(ax, ...)`: the commands issued, in order, and the
      caller's `ax_method` and `legend` dicts as the call leaves them. */
  method SetPlotProps(o: PropsOptions) returns (cmds: seq<Command>, axMethodAfter: Option<AxMethods>, legendAfter: Option<Kwargs>)
    ensures cmds == MethodCalls(Dispatched(o)) + Finishing(o)
    ensures axMethodAfter == if o.axMethod.Some? then Some(WithVspan(o.axMethod.value, o.vspan)) else None
    ensures legendAfter == if o.legend.Some? then Some(WithDefaultLoc(o.legend.value)) else None
    ensures ShowFigure in cmds <==> (o.show == Some(true) || (o.show.None? && o.save.None?))
  {
    var axMethod := if o.axMethod.Some? then o.axMethod.value else [];
    if o.vspan.Some? && !HasKey(axMethod, "vspan") {
      axMethod := Assign(axMethod, "axvspan", Single(VspanKwargs(o.vspan.value)));
    }
    axMethodAfter := if o.axMethod.Some? then Some(axMethod) else None;
    assert axMethod == Dispatched(o);
    var dispatched := Dispatch(axMethod);
    var tail;
    tail, legendAfter := Decorate(o);
    cmds := dispatched + tail;
    NoShowInMethodCalls(axMethod);
    ShowOnlyAtTheEnd(o);
  }

  /** Lines 84-116, after the dispatch: the band, the labels, the legend
      (whose dict gets its `loc` default in place), the limits, then layout,
      save, show and close. */
  method Decorate(o: PropsOptions) returns (tail: seq<Command>, legendAfter: Option<Kwargs>)
    ensures tail == Finishing(o)
    ensures legendAfter == if o.legend.Some? then Some(WithDefaultLoc(o.legend.value)) else None
  {
    var fill: seq<Command> := [];
    if o.fillBetween.Some? {
      fill := [FillBetween(o.fillBetween.value)];
    }
    var show := if o.show.None? then o.save.None? else o.show.value;
    var labels := [SetTitle(o.title), SetXLabel(o.xlabel), SetYLabel(o.ylabel)];
    var legendCmds: seq<Command> := [];
    legendAfter := o.legend;
    if o.legend.Some? {
      var legend := o.legend.value;
      if "loc" !in legend {
        legend := legend["loc" := Int(1)];
      }
      legendAfter := Some(legend);
      legendCmds := [ShowLegend(legend)];
    }
    var xlims: seq<Command> := [];
    if o.xlim.Some? {
      var (lo, hi) := Bounds(o.xlim.value);
      xlims := [SetXLim(lo, hi)];
    }
    assert xlims == XLimPart(o);
    var ylims: seq<Command> := [];
    if o.ylim.Some? {
      var (lo, hi) := Bounds(o.ylim.value);
      ylims := [SetYLim(lo, hi)];
    }
    assert ylims == YLimPart(o);
    var saving: seq<Command> := [];
    if o.save.Some? {
      saving := [SaveFigure(o.save.value)];
    }
    var showing: seq<Command> := [];
    if show {
      showing := [ShowFigure];
    }
    var closing: seq<Command> := [];
    if o.close {
      closing := [CloseFigure];
    }
    assert fill == FillPart(o) && labels == LabelPart(o) && legendCmds == LegendPart(o);
    assert saving == SavePart(o) && showing == ShowPart(o) && closing == ClosePart(o);
    tail := fill + labels + legendCmds + xlims + ylims + [TightLayout] + saving + showing + closing;
  }

  // ----- properties of the dispatch -----

  /** The dispatch only calls named axes methods. */
  lemma {:induction false} NoShowInMethodCalls(d: AxMethods)
    ensures forall c :: c in MethodCalls(d) ==> c.CallMethod?
  {
    if |d| > 0 {
      NoShowInMethodCalls(d[..|d| - 1]);
    }
  }

  /** Dispatching two dicts in turn is dispatching their concatenation:
      calls follow the insertion order of the entries. */
  lemma {:induction false} MethodCallsAppend(d1: AxMethods, d2: AxMethods)
    ensures MethodCalls(d1 + d2) == MethodCalls(d1) + MethodCalls(d2)
    decreases |d2|
  {
    if |d2| == 0 {
      assert d1 + d2 == d1;
    } else {
      var init, last := d2[..|d2| - 1], d2[|d2| - 1];
      assert (d1 + d2)[..|d1 + d2| - 1] == d1 + init;
      assert (d1 + d2)[|d1 + d2| - 1] == last;
      var calls := CallsFor(last.0, last.1);
      assert MethodCalls(d1 + d2) == MethodCalls(d1 + init) + calls;
      MethodCallsAppend(d1, init);
      assert MethodCalls(d2) == MethodCalls(init) + calls;
    }
  }

  /** When every value is a single dict, each entry makes exactly one call,
      at its own position. */
  lemma {:induction false} SingleEntriesCallOnce(d: AxMethods)
    requires forall i :: 0 <= i < |d| ==> d[i].1.Single?
    ensures |MethodCalls(d)| == |d|
    ensures forall i :: 0 <= i < |d| ==> MethodCalls(d)[i] == CallMethod(d[i].0, d[i].1.kw)
  {
    if |d| > 0 {
      SingleEntriesCallOnce(d[..|d| - 1]);
    }
  }

  /** Every keyword dict of every entry is dispatched to that entry's method. */
  lemma {:induction false} EveryKwargsDispatched(d: AxMethods, i: nat, j: nat)
    requires i < |d| && j < |AsList(d[i].1)|
    ensures CallMethod(d[i].0, AsList(d[i].1)[j]) in MethodCalls(d)
  {
    var last := |d| - 1;
    if i < last {
      EveryKwargsDispatched(d[..last], i, j);
    } else {
      assert CallsFor(d[i].0, d[i].1)[j] == CallMethod(d[i].0, AsList(d[i].1)[j]);
    }
  }

  /** Every call of the dispatch comes from some entry of the dict. */
  lemma {:induction false} OnlyEntriesDispatched(d: AxMethods, c: Command)
    requires c in MethodCalls(d)
    ensures c.CallMethod? && exists i :: 0 <= i < |d| && c.name == d[i].0 && c.kw in AsList(d[i].1)
  {
    var last := |d| - 1;
    if |d| == 0 {
      assert false;
    } else if c in MethodCalls(d[..last]) {
      OnlyEntriesDispatched(d[..last], c);
      var i :| 0 <= i < last && c.name == d[..last][i].0 && c.kw in AsList(d[..last][i].1);
      assert d[i] == d[..last][i];
    } else {
      assert c in CallsFor(d[last].0, d[last].1);
    }
  }

  /** With `vspan` given and no 'vspan' key, the span is drawn through
      `ax.axvspan(xmin=..., xmax=...)`. */
  lemma VspanIsDrawn(o: PropsOptions)
    requires o.vspan.Some?
    requires o.axMethod.None? || !HasKey(o.axMethod.value, "vspan")
    ensures SetXSpanCall(o.vspan.value) in MethodCalls(Dispatched(o))
  {
    var d := Dispatched(o);
    var i :| 0 <= i < |d| && d[i] == ("axvspan", Single(VspanKwargs(o.vspan.value)));
    EveryKwargsDispatched(d, i, 0);
  }

  /** The call `vspan` stands for. */
  function SetXSpanCall(vspan: (real, real)): Command
  {
    CallMethod("axvspan", VspanKwargs(vspan))
  }

  /** A caller's own 'axvspan' entry does not stop the merge: `vspan`
      replaces it in place (the guard tests the key 'vspan'). */
  lemma CallerAxvspanReplaced(d: AxMethods, vspan: (real, real), i: nat)
    requires i < |d| && d[i].0 == "axvspan" && !HasKey(d, "vspan")
    ensures |WithVspan(d, Some(vspan))| == |d|
    ensures WithVspan(d, Some(vspan))[i] == ("axvspan", Single(VspanKwargs(vspan)))
  {
  }

  /** The figure is shown by the finishing commands exactly when `show` is
      true, or left at None while `save` is None. */
  lemma ShowOnlyAtTheEnd(o: PropsOptions)
    ensures ShowFigure in Finishing(o) <==> (o.show == Some(true) || (o.show.None? && o.save.None?))
  {
    var head := FillPart(o) + LabelPart(o) + LegendPart(o) + XLimPart(o) + YLimPart(o) + [TightLayout] + SavePart(o);
    assert ShowFigure !in head;
    assert Finishing(o) == head + ShowPart(o) + ClosePart(o);
  }

  /** Only the save step writes the figure to a file. */
  lemma OnlySavePartSaves(o: PropsOptions)
    ensures forall c :: c in Finishing(o) && c.SaveFigure? ==> o.save == Some(c.path)
  {
    var head := FillPart(o) + LabelPart(o) + LegendPart(o) + XLimPart(o) + YLimPart(o) + [TightLayout];
    assert Finishing(o) == head + SavePart(o) + ShowPart(o) + ClosePart(o);
    assert forall c :: c in head ==> !c.SaveFigure?;
  }

  /** Applying the `loc` default twice changes nothing more. */
  lemma DefaultLocIdempotent(legend: Kwargs)
    ensures WithDefaultLoc(WithDefaultLoc(legend)) == WithDefaultLoc(legend)
  {
  }

  /** Saving, showing and closing come last, in that order, after every limit is set. */
  lemma FinishingEndsWithOutput(o: PropsOptions)
    requires o.save.Some? && o.close
    requires EffectiveShow(o.show, o.save)
    ensures var f := Finishing(o);
      |f| >= 4 && f[|f| - 4] == TightLayout && f[|f| - 3] == SaveFigure(o.save.value) &&
      f[|f| - 2] == ShowFigure && f[|f| - 1] == CloseFigure
  {
  }

  /** What a limit option asks for, read from the option alone: a scalar `v`
      means the range from 0 to `v`, a pair means itself. */
  predicate LimitMeans(l: Limit, lo: real, hi: real)
  {
    (l.UpTo? && lo == 0.0 && hi == l.v) || (l.Between? && lo == l.lo && hi == l.hi)
  }

  /** Lines 99-108: the limits are set only for a given option, and then to
      the range it means. */
  lemma LimitsFollowOptions(o: PropsOptions)
    ensures forall c :: c in Finishing(o) && c.SetXLim? ==> o.xlim.Some? && LimitMeans(o.xlim.value, c.xlo, c.xhi)
    ensures forall c :: c in Finishing(o) && c.SetYLim? ==> o.ylim.Some? && LimitMeans(o.ylim.value, c.ylo, c.yhi)
    ensures o.xlim.Some? ==> exists lo, hi :: SetXLim(lo, hi) in Finishing(o) && LimitMeans(o.xlim.value, lo, hi)
    ensures o.ylim.Some? ==> exists lo, hi :: SetYLim(lo, hi) in Finishing(o) && LimitMeans(o.ylim.value, lo, hi)
  {
    var head := FillPart(o) + LabelPart(o) + LegendPart(o);
    var tail := [TightLayout] + SavePart(o) + ShowPart(o) + ClosePart(o);
    assert Finishing(o) == head + XLimPart(o) + YLimPart(o) + tail;
    assert forall c :: c in head + tail ==> !c.SetXLim? && !c.SetYLim?;
    if o.xlim.Some? {
      var (lo, hi) := Bounds(o.xlim.value);
      assert SetXLim(lo, hi) in Finishing(o);
    }
    if o.ylim.Some? {
      var (lo, hi) := Bounds(o.ylim.value);
      assert SetYLim(lo, hi) in Finishing(o);
    }
  }
}

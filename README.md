# Plot planner of `dataproc/core/misc_graph.py`

A Dafny model of the decision logic in the plotting helpers of `misc_graph.py`.
Each piece is taken out of its matplotlib/numpy calls and stated on shapes,
windows and abstract commands.

- `ImagePlan` covers `imshowz` from the `show` default to the inverted limits
  (lines 298-358). It decides the effective `show`/`save`, the extent-conflict
  and rotation errors, and the default window from the unrotated shape. It then
  rotates the shape by `rotate/90` quarter-turns (numpy reduces the count modulo
  4), builds the centre + radius window with the source's Python idioms
  (`x *= x > 0`, `(c) and n or x`), trims with Python slice semantics, picks
  zscale or `minmax`, fixes the extent and flips the limits passed on. The
  planner is a method with local variables, `PlanImshow`. `PlanView` and
  `CentreLimits` are sub-steps of it, proved against the predicates
  `ViewPlanned` and `CentredOn`. `Decoration` states what `imshowz` hands to
  `set_plot_props`.
- `PlotProps` covers `set_plot_props` (lines 66-116). It merges `vspan` into
  `ax_method` and dispatches every keyword dict in insertion order (two nested
  loops in `Dispatch`). It then issues the band, labels, legend (with `loc`
  defaulting to 1), limits (a scalar `v` means `[0, v]`), layout, save, show
  and close. The result is an ordered list of abstract commands, plus the
  caller's `ax_method` and `legend` dicts as the call leaves them, since the
  source updates them in place.
- `CrossSection` covers the `pos` argument of `plot_accross` (lines 168-176).
  A scalar is expanded to `[None] + [0]*(ndim-2) + [pos]`, the length is
  checked, `None` entries become full slices, and the shape of `data[pos]` is
  computed, including numpy's bounds check on fixed entries.
- `DateTiers` covers the format tier of `figaxes_xdate` (lines 412-422), chosen
  from `(retx[-1] - retx[0])*24*60` minutes.
- `Outcome` holds the shared `Option`, `Result` and error types.

Behaviour of the code worth noting:

- The time span is last minus first coordinate, not maximum minus minimum. A
  decreasing sequence therefore gets the finest tier.
- The centre window can be empty. A centre on the left border (`cx = 0`)
  gets the default radius 0 and the x window `[0, 0]`
  (`CentreOnBorderIsEmpty`), so `x_min < x_max` does not hold in general;
  `x_min <= x_max` does (`CentredViewOrdered`).
- The `vspan` guard tests the key `'vspan'` while it writes `'axvspan'`. A
  caller's own `axvspan` entry is therefore replaced (`CallerAxvspanReplaced`).
- On an axis of size 0 the `and/or` idiom does not lower the upper bound
  (`EmptyAxisUpperNotClamped`); the clamp into `[0, n]` holds for `n > 0`.

## Model

| member | source | states |
|---|---|---|
| `DateTiers.TierFor` | dataproc/core/misc_graph.py:413-422 | each format is selected by exactly one half-open interval of spans: `< 4`, `[4, 480)`, `[480, 7200)`, `[7200, 525600)`, `>= 525600` minutes |
| `DateTiers.SpanMinutes` | dataproc/core/misc_graph.py:412 | the span exists exactly for non-empty coordinates and is 0 for a single one |
| `DateTiers.XDateFormat` | dataproc/core/misc_graph.py:412-422 | a pattern is chosen exactly when there is at least one coordinate, and it is the strftime pattern (`%H:%M:%S`, `%H:%M`, `%Y-%b-%d %H:%M`, `%Y %b`, `%Y`) of the tier of `(retx[-1] - retx[0])*24*60` |
| `DateTiers.TierMonotone` | dataproc/core/misc_graph.py:413-422 | a longer span never selects a finer format |
| `DateTiers.BoundariesGoToNextTier` | dataproc/core/misc_graph.py:413-422 | every bound is strict: 4, 480, 7200 and 525600 minutes fall into the next tier |
| `DateTiers.NegativeSpanIsFinest` | dataproc/core/misc_graph.py:412-414 | a last coordinate before the first gives the pattern `%H:%M:%S` |
| `DateTiers.FormatIgnoresEpoch` | dataproc/core/misc_graph.py:412 | shifting every coordinate by one offset, such as a change of date epoch, leaves the format unchanged |
| `CrossSection.Zeros` | dataproc/core/misc_graph.py:169 | `[0]*n` has `max(n, 0)` zero entries |
| `CrossSection.AsIndex` | dataproc/core/misc_graph.py:174 | `p is None and slice(None, None) or p`, evaluated with Python truthiness, turns exactly `None` into a full slice and keeps every other entry, the falsy 0 included |
| `CrossSection.NormalisePos` | dataproc/core/misc_graph.py:168-174 | a scalar is accepted exactly when `ndim >= 2` and becomes full, zeros, `pos`; a list is accepted exactly when its length is `ndim`, entry by entry; otherwise `DimensionMismatch` carries both lengths |
| `CrossSection.SliceShapeFrom` | dataproc/core/misc_graph.py:176 | indexing succeeds exactly when every fixed entry is within `[-n, n)`; it keeps the free axes' sizes, or reports the first failing axis with its index and size |
| `CrossSection.SliceShape` | dataproc/core/misc_graph.py:176 | the shape of `data[pos]` has one axis per free entry, of that axis's size |
| `CrossSection.FreeSizesLength` | dataproc/core/misc_graph.py:176 | the kept shape has as many axes as there are free entries |
| `CrossSection.FreeSizesAllFixed` | dataproc/core/misc_graph.py:176 | with every entry fixed, no axis is kept |
| `CrossSection.FreeSizesAllFree` | dataproc/core/misc_graph.py:176 | with every entry free, the whole shape is kept |
| `CrossSection.ScalarPosCutsFirstAxis` | dataproc/core/misc_graph.py:168-176 | a scalar `pos` within the last axis, on data whose middle axes are non-empty, gives a one-dimensional slice as long as the first axis |
| `CrossSection.ListedLengthDecides` | dataproc/core/misc_graph.py:170-173 | a list `pos` is refused exactly when its length differs from `ndim` |
| `CrossSection.ScalarRefusedOnOneAxis` | dataproc/core/misc_graph.py:169-173 | on one-dimensional data a scalar `pos` is refused with sizes 2 and 1 |
| `PlotProps.Assign` | dataproc/core/misc_graph.py:78 | `d[k] = v` keeps an existing key's place, appends a new key, leaves other entries alone and keeps keys unique |
| `PlotProps.WithVspan` | dataproc/core/misc_graph.py:77-78 | without `vspan`, or with a `'vspan'` key, the dict is unchanged; otherwise an `axvspan` entry with `xmin`/`xmax` of the span is appended, or replaces an existing `axvspan` entry in its place, and nothing else changes |
| `PlotProps.MethodCallsSnoc` | dataproc/core/misc_graph.py:79-83 | one more entry adds its calls after those of the earlier entries |
| `PlotProps.Dispatch` | dataproc/core/misc_graph.py:79-83 | the nested loops issue exactly the calls of the whole dict, entry after entry |
| `PlotProps.Decorate` | dataproc/core/misc_graph.py:84-116 | issues band, labels, legend, limits, layout, save, show and close in that order; the caller's legend dict gets its `loc` default |
| `PlotProps.SetPlotProps` | dataproc/core/misc_graph.py:75-116 | dispatches the merged `ax_method` first, then the finishing commands; the caller's `ax_method` is left merged and its `legend` with `loc` defaulting to 1; the figure is shown exactly when `show` is true, or None while `save` is None |
| `PlotProps.NoShowInMethodCalls` | dataproc/core/misc_graph.py:79-83 | the dispatch only calls named axes methods |
| `PlotProps.MethodCallsAppend` | dataproc/core/misc_graph.py:79-83 | dispatching a concatenated dict is dispatching each part in turn |
| `PlotProps.SingleEntriesCallOnce` | dataproc/core/misc_graph.py:79-83 | when every value is one dict, entry `i` makes call `i` and only that one |
| `PlotProps.EveryKwargsDispatched` | dataproc/core/misc_graph.py:79-83 | every keyword dict of every entry is passed to that entry's method |
| `PlotProps.OnlyEntriesDispatched` | dataproc/core/misc_graph.py:79-83 | every call issued comes from some entry, with its name and one of its dicts |
| `PlotProps.VspanIsDrawn` | dataproc/core/misc_graph.py:77-83 | with `vspan` given and no `'vspan'` key, `axvspan(xmin, xmax)` is called |
| `PlotProps.CallerAxvspanReplaced` | dataproc/core/misc_graph.py:77-78 | a caller's own `axvspan` entry is overwritten in place by `vspan` |
| `PlotProps.ShowOnlyAtTheEnd` | dataproc/core/misc_graph.py:87-114 | the finishing commands show the figure exactly when `show` is true, or None while `save` is None |
| `PlotProps.OnlySavePartSaves` | dataproc/core/misc_graph.py:111-112 | the figure is saved only to the given `save` path |
| `PlotProps.LimitsFollowOptions` | dataproc/core/misc_graph.py:99-108 | `set_xlim`/`set_ylim` are called only for a given limit, and then with `[0, v]` for a scalar `v` and with the pair itself otherwise |
| `PlotProps.DefaultLocIdempotent` | dataproc/core/misc_graph.py:95-96 | applying the `loc` default again changes nothing |
| `PlotProps.FinishingEndsWithOutput` | dataproc/core/misc_graph.py:110-116 | when `save` is given, `close` is true and the effective `show` holds, layout, save, show and close are the last four commands, in that order |
| `ImagePlan.TurnedParity` | dataproc/core/misc_graph.py:321 | `k` quarter-turns keep the shape for even `k` and exchange the axes for odd `k` |
| `ImagePlan.Rot90Parity` | dataproc/core/misc_graph.py:317-321 | `np.rot90` by any turn count, negative included, swaps height and width exactly for odd counts |
| `ImagePlan.Rot90Compose` | dataproc/core/misc_graph.py:321 | rotating by `a` then by `b` turns is rotating by `a + b` |
| `ImagePlan.MinOf` | dataproc/core/misc_graph.py:328 | `min` returns an element of the list that is at most every element |
| `ImagePlan.DefaultRadius` | dataproc/core/misc_graph.py:325-328 | the default radius is the smallest of the four border distances `[W-cx, cx, H-cy, cy]` |
| `ImagePlan.CentreWindow` | dataproc/core/misc_graph.py:329-334 | the clamped window lies in `[0, n]`; its lower end is only raised to 0 and its upper end only lowered to `n`; a centre in `[0, n]` with a non-negative radius lies inside it |
| `ImagePlan.PythonClampIsCentreWindow` | dataproc/core/misc_graph.py:331-334 | on a non-empty axis, `lo *= lo > 0` and `hi = (hi > n) and n or hi` compute exactly that clamp |
| `ImagePlan.EmptyAxisUpperNotClamped` | dataproc/core/misc_graph.py:332 | on an axis of size 0 the `and/or` idiom keeps the upper end |
| `ImagePlan.DefaultRadiusNeedsNoClamp` | dataproc/core/misc_graph.py:324-334 | with the centre inside the image and the default radius, the radius is non-negative and clamping changes nothing |
| `ImagePlan.CentreOnBorderIsEmpty` | dataproc/core/misc_graph.py:325-334 | a centre on the left border (`cx = 0`) gets radius 0 and the x window `[0, 0]` |
| `ImagePlan.SliceBound` | dataproc/core/misc_graph.py:338 | a slice bound lands in `[0, n]`: a bound in `[0, n]` is kept, one past the end is clipped to `n`, a negative bound in `[-n, 0)` counts from the end and one below `-n` becomes 0 |
| `ImagePlan.SliceLen` | dataproc/core/misc_graph.py:338 | a slice is never longer than the axis; for non-negative bounds it has `max(0, min(hi, n) - min(lo, n))` elements, so `hi - lo` inside the axis, `n - lo` past the end and none for `hi <= lo` |
| `ImagePlan.TrimmedDefaultIsSquare` | dataproc/core/misc_graph.py:336-340 | slicing to the default centre window keeps `2 rad` elements on each axis |
| `ImagePlan.CentreLimits` | dataproc/core/misc_graph.py:324-334 | the `cxy` window is the clamped centre window, and with the default radius and an inside centre it is `[c - rad, c + rad]` |
| `ImagePlan.PlanView` | dataproc/core/misc_graph.py:312-340 | default window from the unrotated shape; data rotated by `rotate/90` turns; a `cxy` window replaces `xlim`/`ylim`; trimming slices the rotated data and resets the window to `[0, size - 1]` |
| `ImagePlan.PlanImshow` | dataproc/core/misc_graph.py:298-358 | fails exactly on an extent conflict (checked first, on the caller's values) or a rotation that is not a multiple of 90; otherwise plans the view, the contrast, an extent taken before inversion, the flipped limits, and `show`/`save` with `interactive` forcing no show and no save |
| `ImagePlan.CentredViewInsideImage` | dataproc/core/misc_graph.py:331-334 | on a non-empty image every `cxy` window lies in `[0, W] x [0, H]` |
| `ImagePlan.CentredViewOrdered` | dataproc/core/misc_graph.py:329-334 | a centre inside the image with a non-negative radius gives `lo <= hi` on both axes |
| `ImagePlan.CentredTrimIsSquare` | dataproc/core/misc_graph.py:336-340 | trimming to the default centre window yields a `2 rad` square shown in `[0, 2 rad - 1]` on both axes |
| `ImagePlan.DefaultWindowNotRotated` | dataproc/core/misc_graph.py:312-322 | after an odd rotation the data is `W x H` but the default window is still `[0, W] x [0, H]` of the unrotated shape |
| `ImagePlan.Decoration` | dataproc/core/misc_graph.py:367-373 | the plan's limits, `save`, `show` and `close` replace those options, and title, labels, legend, `fill_between`, `ax_method` and `vspan` are passed through |
| `ImagePlan.PlanDecidesShowAndSave` | dataproc/core/misc_graph.py:298-305 | since `imshowz` always passes a definite `show`, the figure is shown exactly when the plan says so, and an interactive plan is neither shown nor saved |

## Left out

- Rendering: `imshow`, `plot`, `twinx`, `colorbar`, blanking tick labels (`ticks`), `tight_layout`, `savefig`, `show` and `close` are abstract commands or plan fields, or not modelled. They are calls into matplotlib.
- `figaxes` (lines 428-474) and the figure/axes resolution in every helper. Their behaviour is that of matplotlib's global figure manager.
- `prep_data_plot` (lines 191-232): reading FITS files, HDUs and `AstroFile`. `imshowz` is modelled from the extracted shape, and its `**kwargs` are not forwarded to the reader or to `imshow`.
- `dp.zscale`: an external contrast algorithm. The plan only records that zscale is applied to the rotated and cropped data.
- Pixel values: `np.rot90`, slicing and fancy indexing are modelled on shapes only. `imshowz` data is two-dimensional.
- `fill_between` (lines 42-63): floating-point margins and matplotlib calls. `set_plot_props` records only that it is called with the given keywords. Its `top is None` branch multiplies None and raises.
- `figaxes_xdate`'s conversion of astropy `Time`, `datetime` and Julian days to plot dates (lines 402-409). Only the tier chosen over plot-date coordinates is modelled. The single-`datetime` branch cannot be indexed by `retx[-1]` and is not modelled.
- `plot_accross` after the slice shape: line 186 calls `set_plot_props` without `ax` and raises. The `print(ylim)` at line 163 is debugging output.
- `_imshowz_binding` and the interactive handler (lines 376-379), and the `__main__` block.
- TierFor: plot dates and `tdelta` are exact reals. In float64 the span `(retx[-1] - retx[0])*24*60` carries rounding error, so a span of exactly 4, 480, 7200 or 525600 minutes (`BoundariesGoToNextTier`) and the independence from the epoch (`FormatIgnoresEpoch`) hold only in exact arithmetic.
- Decoration: the caller's other keyword arguments are modelled as options that `set_plot_props` names. In the source the same `**kwargs` also reach `prep_data_plot` and `ax.imshow`, and any keyword `set_plot_props` does not name (`cmap`, `hdu`) makes the call at line 373 raise TypeError. That error path is not modelled. Keywords that `ax.imshow` (lines 353-354) refuses are also not modelled, so the pass-through that `Decoration` states covers only keywords both calls accept.
- PlanImshow: `rotate` is an integer. A float `rotate`, and the float rounding of `rotate/90` for magnitudes beyond 2^53, are not modelled.
- PlanImshow: pixel coordinates (`xlim`, `ylim`, `cxy`, `plot_rad`, `extent`) are integers. Float centres or radii are not modelled, and trimming with them would fail in numpy.
- SetPlotProps: a `legend` given as a bool (which would fail at `.keys()`) is not modelled. Keyword values are a small closed set (int, real, text, bool).
- SetPlotProps: `getattr(ax, name)` on a name that is not an axes method (which raises `AttributeError`) is not modelled. The command is recorded as issued.

# django-graphs core, modelled in Dafny

django-graphs draws charts for Django sites with cairo. This project models the
part of it that decides *where things go* and *what the data is*, and proves
properties about that model:

- **Render utilities** (`render_utils.dfy`, module `RenderUtils`): hex colour
  parsing, named rotations, `frange`, `safe_min`/`safe_max` and
  `roundUpToNearest`, with Python 2's numeric rules written out. `int / int`
  floors, `round` goes half away from zero, and a number is an `Int` or a
  `Float`.
- **Series and categories** (`graph.dfy`, module `Graph`): a `Series` is a list
  of categories. Each category holds a title and the values filed under it.
  A `Graph` keeps the series by title and merges their categories by title.
- **Axes** (`axis.dfy`, module `Axis`): an axis splits its data by sign and
  picks a value window around zero, rounded to fives and snapped to the
  step grid. From these it places the zero line, the origin and the border
  origin, maps values and category titles to canvas points, and lists where
  each decoration (tick, label, gridline) is drawn.
- **Presentation schema** (`scheme.dfy`, module `Scheme`): a tree of nested
  dictionaries of style settings.
  - `addRule` merges declarations into it.
  - `pathUpdate` assigns at a sanitized dotted selector.
  - `getFontStyles` collects the font styles it holds.
- **Layers** (`layering.dfy`, module `Layering`): a `LayerManager` is a stack
  of layers. Index 0 is the top. It supports:
  - lookup by name, collision tests and destruction;
  - the four stack moves;
  - the opacity each layer is rendered at.
- Shared pieces:
  - `wrappers.dfy` (module `Wrappers`): the Python exceptions as an error
    type, plus `Option`, `Result` and `Outcome`;
  - `py_lists.dfy` (module `PyLists`): the list operations the source relies
    on: `filter`, `reverse`, the clamping `list.insert`, `list.index` and
    `del` with negative indices.

Where a Python function can raise, the model returns `Err(e)` or `Fail(e)`
with the exception that would be raised. Examples:
- a missing `intercept` is `AttributeError` from the `assert`;
- a zero span is `ZeroDivisionError`;
- an unknown name is `KeyError` or `ValueError`, depending on the lookup that
  fails.

Objects whose fields the source updates become classes with those fields:
`Series`, `Graph`, `Axis`, `PresentationSchema`, `Layer` and `LayerManager`.
Their methods are specified against the functions beside them, and those
functions carry the lemmas.

Several places in the model follow the code where its comments or names
suggest something else:
- `getWindow` guards the negative side with `p_min < 100`. That guard always
  holds, so the negative bound is always rounded (`Axis.RoundedBounds`).
- `moveUp` moves a layer two places up, as written.
- `moveToBottom` and `moveDown` are modelled as written, and the manager's methods do what the code does. The corrected moves sit beside them (see "## Findings").
- `positionalBounds` uses the layer's dimensions as the *end* of its ranges,
  not as their length.

## Model

| member | source | states |
|---|---|---|
| PyLists.Filter | src/axis.py:52 | the result keeps exactly the elements that pass the test and nothing else |
| PyLists.FilterConcat | src/axis.py:49-52 | filtering a concatenation filters each part |
| PyLists.ReverseReverse | src/layering.py:81-88 | reversing twice restores the list, so `renderAll` leaves the stack as it found it |
| PyLists.Reverse | src/layering.py:81 | `list.reverse()` keeps the length |
| PyLists.ReverseAt | src/layering.py:81 | after reversing, position `k` holds what position `len - 1 - k` held |
| PyLists.Insert | src/graph.py:105-109 | `list.insert` places the item at the clamped index (negative indices count from the end) and keeps every other item in order |
| PyLists.Index | src/layering.py:70-71 | `list.index` is the least position holding the item, and raises `ValueError` exactly when the item is absent |
| PyLists.Delete | src/layering.py:76-78 | `del s[i]` removes exactly one element; negative indices count from the end; out of range raises `IndexError` |
| RenderUtils.PyRound | src/render_utils.py:52 | the rounded value is within one half of the input, and a tie goes away from zero |
| RenderUtils.PyRoundOdd | src/render_utils.py:52 | rounding is symmetric about zero |
| RenderUtils.FloorDiv | src/render_utils.py:52 | Python 2 integer division floors, for either sign of the divisor |
| RenderUtils.HexToRGB | src/render_utils.py:3-8 | succeeds exactly when `digits > 0` and all three `digits`-wide fields after the first character parse as hex (a sign is accepted); each channel is then its field's value over `16^digits - 1`; every failure is `ValueError` |
| RenderUtils.HexMax | src/render_utils.py:4 | the divisor is the largest `digits`-wide hex number, `16^digits - 1` |
| RenderUtils.HexToRGBSixDigits | src/render_utils.py:3-8 | a colour `#rrggbb` gives each channel as its two hex digits over 255, each in [0, 1] |
| RenderUtils.HexToRGBSkipsFirst | src/render_utils.py:5 | the first character (the `#`) is never read |
| RenderUtils.HexToRGBWhite | src/render_utils.py:3-8 | `#ffffff` is `(1, 1, 1)` |
| RenderUtils.DehumanizeRotation | src/render_utils.py:23-32 | numbers pass through; the four named rotations map to 0, -90, -45 and 15; any other name raises `KeyError` |
| RenderUtils.Frange | src/render_utils.py:34-37 | yields `ceil((upper - lower) / inc)` values (none when that is negative), the n-th being `lower + n * inc`; a zero increment raises `ZeroDivisionError` |
| RenderUtils.FrangeBounds | src/render_utils.py:34-37 | with a positive increment every value lies in `[lower, upper)` |
| RenderUtils.SafeMin | src/render_utils.py:39-43 | the least element, and the first of equal least ones as `min` returns it (every element before it is greater); 0 for an empty list |
| RenderUtils.SafeMax | src/render_utils.py:45-49 | the greatest element, and the first of equal greatest ones as `max` returns it (every element before it is less); 0 for an empty list |
| RenderUtils.RoundUpToNearestIsLeastMultiple | src/render_utils.py:51-52 | on ints with a positive step the result is the least multiple of the step at or above the value |
| RenderUtils.RoundUpToNearestIdempotent | src/render_utils.py:51-52 | rounding an already rounded int up again changes nothing, and 0 stays 0 |
| RenderUtils.RoundUpToNearestFloat | src/render_utils.py:51-52 | on a float `((value + nearest - 1) / nearest) * nearest` is exact, so the result is `round(value + nearest - 1)`: 8.6 gives 13, not 10, and 10.5 gives 15 |
| RenderUtils.RoundUpToNearestNonNeg | src/render_utils.py:51-52 | a non-negative value rounds to a non-negative result, a positive one to a positive result when the step exceeds 1, and the int 0 to 0 |
| RenderUtils.RoundUpToNearest | src/render_utils.py:51-52 | `int(round(((value + (nearest - 1)) / nearest) * nearest))`, flooring on ints; its meaning is proved in `RoundUpToNearestIsLeastMultiple`, `RoundUpToNearestIdempotent`, `RoundUpToNearestFloat` and `RoundUpToNearestNonNeg` |
| Graph.SameTitleIsEquivalence | src/graph.py:48 | title equality (Python `==`) is an equivalence |
| Graph.TitlesOf | src/graph.py:80-82 | the titles of the categories, in order |
| Graph.FindTitle | src/graph.py:89-93 | the least index whose title equals the given one, or none exactly when no title matches |
| Graph.Appended | src/graph.py:95-99 | appending adds a category only for a new title |
| Graph.AppendedToExisting | src/graph.py:95-99 | a known title gets the value at the end of its first category's values, and nothing else changes |
| Graph.AppendedToNew | src/graph.py:95-99 | a new title adds the category `(title, series title, [value])` at the end |
| Graph.AppendedKeepsTitles | src/graph.py:95-99 | existing titles stay where they are |
| Graph.AppendedKeepsUnique | src/graph.py:95-99 | a series with distinct titles keeps them distinct |
| Graph.ExtendedKeepsUnique | src/graph.py:101-103 | extending keeps the titles distinct and the existing titles in place |
| Graph.ExtendedByConcat | src/graph.py:101-103 | extending by `a + b` is extending by `a` and then by `b` |
| Graph.ExtendedBy | src/graph.py:101-103 | the result has at least the old categories and at most one more per pair; `ExtendedKeepsUnique` and `ExtendedByConcat` state how it keeps titles and composes |
| Graph.EquationPairsConcat | src/graph.py:84-87 | evaluating over a joined range joins the evaluations: each point depends on its own `x` alone and the order of the range is kept |
| Graph.Series.constructor | src/graph.py:70-78 | a new series holds its dataset appended pair by pair |
| Graph.Series.Index | src/graph.py:89-93 | returns the least position with an equal title, or raises `KeyError` exactly when there is none |
| Graph.Series.Append | src/graph.py:95-99 | the categories become `Appended` of the old ones |
| Graph.Series.Extend | src/graph.py:101-103 | the categories become the old ones extended by the pairs |
| Graph.Series.Insert | src/graph.py:105-109 | a new one-value category goes in where `list.insert` puts it, even if the title already exists |
| Graph.Series.Remove | src/graph.py:111-112 | removes the first category with the title; `KeyError` and no change when there is none |
| Graph.Series.FromEquation | src/graph.py:84-87 | appends `(x, f(x))` for each `x` of the range and returns the series itself |
| Graph.FindTitleIsLeast | src/graph.py:89-93 | the first match by title is the one `FindTitle` reports |
| Graph.MergedInto | src/graph.py:53 | extending a global category keeps its title |
| Graph.ImportCategoryEffect | src/graph.py:47-53 | importing a category keeps titles distinct; a known title gets the incoming values appended, a new one is appended as it is |
| Graph.ImportKnownCategory | src/graph.py:50-53 | a known title: titles unchanged, the matching category's values extended by the incoming values, every other category unchanged |
| Graph.ImportNewCategory | src/graph.py:48-49 | a new title: the category is added at the end and the titles stay distinct |
| Graph.ImportCategoriesConcat | src/graph.py:63 | importing `a + b` is importing `a` and then `b` |
| Graph.ImportCategoriesKeepsUnique | src/graph.py:63 | the graph's category titles stay distinct however many categories are imported |
| Graph.ImportCategory | src/graph.py:47-53 | merging one category by title; `ImportCategoryEffect`, `ImportKnownCategory` and `ImportNewCategory` state its effect in each case |
| Graph.ImportCategories | src/graph.py:63 | `map(self.__importCategory, series)`: each category merged in order; `ImportCategoriesConcat` and `ImportCategoriesKeepsUnique` state how it composes and keeps titles distinct |
| Graph.SeriesPrefix | src/graph.py:60-65 | the series arguments before the first non-series |
| Graph.StoreSeries | src/graph.py:62 | the stored titles are the old ones plus the titles of the series imported |
| Graph.StoreSeriesLastWins | src/graph.py:62 | a later series with the same title replaces an earlier one |
| Graph.Graph.constructor | src/graph.py:42-43 | a new graph has no series and no categories |
| Graph.Graph.ImportOneCategory | src/graph.py:47-53 | the categories become `ImportCategory` of the old ones; the series are untouched |
| Graph.Graph.ImportAllCategories | src/graph.py:63 | imports every category in order |
| Graph.Graph.Store | src/graph.py:62-63 | stores the series under its title, replacing any earlier one, and merges its categories into the graph's |
| Graph.Graph.ImportSeries | src/graph.py:55-65 | stores each series by title and imports its categories, in order, up to the first argument that is not a series; that argument raises `TypeError`, and the series before it stay imported |
| Axis.AbsR | src/axis.py:341 | the absolute value |
| Axis.SortDataSplit | src/axis.py:42-52 | a datum is in the positive data exactly when it is above zero, in the negative data exactly when it is below zero, and zero is in neither |
| Axis.NumericAxes | src/axis.py:85-93 | a dependent axis is always numeric; an independent axis with a string title is not |
| Axis.RescaleMinSide | src/axis.py:116-119 | when the positive side dominates, the minimum snaps to the grid of `max / steps` and stays at or below zero |
| Axis.RescaleMaxSide | src/axis.py:120-122 | otherwise the maximum snaps to the grid of `min / steps` and stays at or above zero |
| Axis.RescaleTie | src/axis.py:120-122 | when both sides are equal the maximum is recomputed to itself |
| Axis.RescaleEffect | src/axis.py:115-123 | rescaling keeps the window around zero and leaves a window with a zero bound alone |
| Axis.StringTitlesWindow | src/axis.py:103-105 | with string titles only, every title is positive data, the axis is not numeric and the window is `(0, #titles)` |
| Axis.RoundedBounds | src/axis.py:108-113 | the rounded bounds keep their signs; the `p_min < 100` guard always holds; an empty side gives 0 |
| Axis.WindowSigns | src/axis.py:95-123 | the window always contains zero; an empty side gives a zero bound; an independent window counts the titles of each sign |
| Axis.SortedDataSigned | src/axis.py:52 | the positive data are all above zero and the negative data all below |
| Axis.WindowOfPositiveData | src/axis.py:107-123 | with only positive data, the window starts at 0 and ends at the least multiple of 5 at or above an int maximum below 100, or at the maximum itself from 100 on |
| Axis.WindowDropsSmallPositiveSide | src/axis.py:107-123 | the positive bound can vanish: data 1 and -1000 give the window `(-1000, 0)` |
| Axis.PositioningRatioOfWindow | src/axis.py:125-138 | for a window around zero the ratio is `max` when `min` is 0, `|min|` when `max` is 0, and `max / |min|` otherwise (the last branch is unreachable) |
| Axis.RelZeroOf | src/axis.py:163-178 | no offset for a non-numeric axis or a window with a zero bound; otherwise the offset lies within the length |
| Axis.RelZeroProportion | src/axis.py:163-178 | away from the special cases the zero line splits the length in the proportion `|min| : max` |
| Axis.RelZeroWhenRatioEqualsBound | src/axis.py:173-174 | data 12.0 and -0.5 give the window `(-4, 16)`, ratio 4, and an offset of 0 |
| Axis.SortSet | src/axis.py:47-51 | what is sorted by sign: every data value of a dependent axis, the titles of an independent one; `SortDataSplit` and `NumericAxes` state the split |
| Axis.Numbers | src/axis.py:108-111 | the numbers among the sorted data, each drawn from it, none when it is empty |
| Axis.IsAxisNumeric | src/axis.py:85-93 | no string among the positive or negative data; `NumericAxes` says when it holds |
| Axis.RoundedMax | src/axis.py:108-110 | the positive bound; `RoundedBounds` and `WindowOfPositiveData` state its sign and rounding |
| Axis.RoundedMin | src/axis.py:111-113 | the negative bound; `RoundedBounds` states its sign and that the `p_min < 100` guard always holds |
| Axis.Rescale | src/axis.py:115-123 | snapping the smaller side to the larger side's step grid; `RescaleMinSide`, `RescaleMaxSide`, `RescaleTie` and `RescaleEffect` state the result |
| Axis.GetWindow | src/axis.py:95-123 | the window; `WindowSigns`, `StringTitlesWindow`, `WindowOfPositiveData` and `WindowDropsSmallPositiveSide` state what it is |
| Axis.PositioningRatio | src/axis.py:125-138 | the ratio; `PositioningRatioOfWindow` states its value on a window around zero |
| Axis.Axis.constructor | src/axis.py:26-40 | the axis keeps its inputs and derives its titles, sign split, numeric flag and window from the categories |
| Axis.Axis.WindowFacts | src/axis.py:95-123 | no negative data gives `min == 0`; no positive data gives `max == 0` |
| Axis.Axis.InterceptAxis | src/axis.py:318-323 | sets the intercepting axis and changes nothing else |
| Axis.Axis.ImportDecoration | src/axis.py:389-390 | appends one decoration |
| Axis.Axis.Length | src/axis.py:140-157 | requires an intercept (else `AttributeError`), never exceeds the canvas extent, and is the whole width for a horizontal axis whose intercept is not fixed |
| Axis.Axis.CategoryWidth | src/axis.py:159-161 | the length shared equally among the titles: `AttributeError` on a dependent axis, `ZeroDivisionError` with no titles |
| Axis.Axis.RelZero | src/axis.py:163-178 | defined whenever the axis is intercepted; an error is always the missing intercept (`AttributeError`); a non-numeric axis gives 0 even without one |
| Axis.MutualLockedOriginsAgree | src/axis.py:189-214 | two axes that intercept each other and cross compute the same locked origin, and on one canvas place it at the same point |
| Axis.Axis.AbsLockedOrigin | src/axis.py:204-214 | defined exactly when the axis is intercepted (else `AttributeError`); the lower left corner moved right by the vertical axis's label extent and up by the horizontal axis's |
| Axis.Axis.RelOrigin | src/axis.py:223-233 | the two axes' zero offsets, ordered by orientation; defined when both axes are intercepted |
| Axis.Axis.AbsOrigin | src/axis.py:235-243 | defined exactly when `relOrigin` is; the lower left corner moved right by the horizontal axis's `relZero` and up by the vertical axis's; with both offsets 0 it is the corner itself |
| Axis.Axis.BorderOrigin | src/axis.py:245-265 | a fixed side takes the locked origin and a free side takes the zero origin, one coordinate per axis |
| Axis.Axis.AbsBottom | src/axis.py:180-187 | the lower left corner of the axes' area; `AbsOrigin`, `AbsLockedOrigin` and `BorderOrigin` are stated from it |
| Axis.Axis.Coordinate | src/axis.py:307-308 | a number is its own coordinate; a string is the index of its first title, and `ValueError` when absent |
| Axis.Axis.PositionAt | src/axis.py:309-316 | a coordinate is always placed once both axes are intercepted |
| Axis.Axis.PositionAtHorizontal | src/axis.py:309-314 | on a horizontal axis `x` lies `unit * x` right of the border origin, at its height |
| Axis.Axis.PositionAtVertical | src/axis.py:311-316 | on a vertical axis `x` lies `unit * x` above the zero line, which is `relZero` above the border origin |
| Axis.Axis.Span | src/axis.py:296-305 | the dominant window bound, less one outside bucket mode; `StringAxisGeometry` and `ConsecutivePositions` use it |
| Axis.Axis.Unit | src/axis.py:306 | the scale of `positionOfValue`; `PositionAtHorizontal` and `PositionAtVertical` state positions in terms of it |
| Axis.Axis.PositionOfValue | src/axis.py:290-316 | `AttributeError` without an intercept, `ZeroDivisionError` for a zero span, the coordinate's error for an unknown title, and otherwise the placed coordinate |
| Axis.Axis.PositionOfTitle | src/axis.py:307-308 | a title is drawn where its index is |
| Axis.Axis.CategoriesAreEvenlySpaced | src/axis.py:356-364 | on a bucket-mode categorical axis of string titles, consecutive categories are one `categoryWidth` apart on the same line |
| Axis.Axis.StringAxisGeometry | src/axis.py:296-306 | such an axis spans one unit per title, its zero line is on the border, and each category is `length / span` wide |
| Axis.Axis.ConsecutivePositions | src/axis.py:309-314 | on a horizontal axis with its zero line on the border, consecutive whole values are `length / span` apart |
| Axis.Axis.ValueTicks | src/axis.py:350-355 | each mark is the value's tick at its position; half ticks sit half an increment further |
| Axis.Axis.CategoryTicks | src/axis.py:359-364 | each mark is the title at its index; half ticks sit half a category further |
| Axis.Axis.ValueTicksStopAtError | src/axis.py:350-355 | the first failing position decides the result |
| Axis.Axis.CategoryTicksStopAtError | src/axis.py:359-364 | the first failing position decides the result |
| Axis.Axis.TickMarks | src/axis.py:340-364 | the loop for one decoration yields the marks of `TickMarksOf` for its tick kind |
| Axis.Axis.ValueTickMarks | src/axis.py:340-355 | the dependent-axis loop yields the marks at the `frange` values |
| Axis.Axis.CategoryTickMarks | src/axis.py:356-364 | the categorical loop yields one mark per title |
| Axis.Axis.DecorationTicks | src/axis.py:332-368 | one list of marks per decoration, in order |
| Axis.Axis.DecorationTicksStopAtError | src/axis.py:332-368 | the first decoration that fails decides the result |
| Axis.Axis.DecorateAtTicks | src/axis.py:327-368 | decorates every decoration in turn and stops at the first exception |
| Axis.Axis.WholeTickValues | src/axis.py:345-350 | whole ticks sit at `min + k * increment`, from `min` to less than one increment past `|max|` |
| Axis.Axis.EmptyWindowTicksFail | src/axis.py:345-350 | a `(0, 0)` window on a dependent axis has a zero increment and raises `ZeroDivisionError` |
| Axis.Axis.Increment | src/axis.py:341-345 | the dominant bound over `steps`; `WholeTickValues` and `EmptyWindowTicksFail` state the ticks it gives |
| Axis.Axis.TickValues | src/axis.py:346-350 | the `frange` a dependent axis ticks over; `WholeTickValues` states its values |
| Axis.Axis.ValueTick | src/axis.py:351-355 | one dependent tick; `ValueTicks` states the marks built from it |
| Axis.Axis.CategoryTick | src/axis.py:359-364 | one category tick; `CategoryTicks` states the marks built from it |
| Axis.Axis.TickMarksOf | src/axis.py:340-364 | the marks of one decoration; the `TickMarks` loop is proved to yield them |
| Axis.MutualInterceptAgrees | src/axis.py:223-243 | two axes that intercept each other and cross agree on the origin |
| Scheme.Update | src/scheme.py:29 | `dict.update`: the new declarations win and every other key is kept |
| Scheme.AddedRule | src/scheme.py:26-39 | raises `AttributeError` exactly when the dictionary to update is not one; otherwise only the named layer changes |
| Scheme.AddRuleMergesLayer | src/scheme.py:27-29 | without a selector the declarations are merged into the layer |
| Scheme.AddRuleMergesSelector | src/scheme.py:30-33 | with a selector the declarations are merged into `layer[selector]`, which is created empty if missing |
| Scheme.AddRuleNewLayer | src/scheme.py:34-39 | a new layer holds the declarations, directly or under the selector |
| Scheme.Sanitize | src/scheme.py:42 | removes exactly the characters `()[]{}\'"` |
| Scheme.SanitizeIdempotent | src/scheme.py:42 | sanitizing twice changes nothing |
| Scheme.Split | src/scheme.py:43 | `split('.')` gives at least one piece and no piece holds a dot |
| Scheme.JoinSplit | src/scheme.py:43-45 | joining the split pieces with dots gives the selector back |
| Scheme.SplitJoin | src/scheme.py:43-45 | splitting dot-free pieces joined with dots gives the pieces back |
| Scheme.PathOf | src/scheme.py:42-43 | the key path, which joins back to the sanitized selector |
| Scheme.SetPathSucceeds | src/scheme.py:45 | the assignment succeeds exactly when every proper prefix of the path leads to a dictionary |
| Scheme.SetPathStores | src/scheme.py:45 | after the assignment the value is found at the path |
| Scheme.SetPathFrame | src/scheme.py:45 | the assignment leaves every path that diverges from it unchanged |
| Scheme.SetPath | src/scheme.py:45 | the assignment the generated statement performs; `SetPathSucceeds`, `SetPathStores` and `SetPathFrame` state when it succeeds and what it changes |
| Scheme.FontStyleHasPath | src/scheme.py:50-66 | every style found sits at the end of some key path |
| Scheme.PathHasFontStyle | src/scheme.py:50-66 | every style at the end of a key path is found |
| Scheme.FontStylesReachable | src/scheme.py:50-66 | the styles found are exactly the styles stored |
| Scheme.FontStylesIn | src/scheme.py:52-64 | `deepFind`: nothing from a list; `FontStyleHasPath`, `PathHasFontStyle` and `FontStylesReachable` state that it finds exactly the stored styles |
| Scheme.PresentationSchema.constructor | src/scheme.py:22-24 | a new schema is empty |
| Scheme.PresentationSchema.AddRule | src/scheme.py:26-39 | the schema becomes `AddedRule` of the old one, or stays unchanged and raises |
| Scheme.PresentationSchema.PathUpdate | src/scheme.py:41-48 | `True` exactly when the generated statement compiles and the path is open; the value is then stored at the path, and on `False` nothing changes |
| Scheme.PresentationSchema.FontStyles | src/scheme.py:50-66 | the set of font styles reachable through dictionaries |
| Scheme.PresentationSchema.GetAttr | src/scheme.py:68-70 | the top-level entry of that name, or `None` |
| Layering.RangeList | src/layering.py:160-161 | `range(lo, hi)` is `lo, lo + 1, …, hi - 1` |
| Layering.InRangeList | src/layering.py:175 | `x in range(lo, hi)` exactly when `lo <= x < hi` |
| Layering.RangesShare | src/layering.py:66-67 | two ranges share a value exactly when the larger start is below the smaller end |
| Layering.RenderOpacity | src/layering.py:83-87 | a layer is skipped exactly when its scheme's `enabled` is false; an enabled layer with a numeric `transparency` `t` renders at `t * 0.01`; every other case (no scheme, a missing key, a non-numeric transparency) renders at 1 |
| Layering.MoveToTopPermutes | src/layering.py:90-94 | moving to the top puts the layer first, keeps the rest in order, and neither loses nor duplicates a layer |
| Layering.MoveUpPermutes | src/layering.py:102-106 | `moveUp` moves the layer two places up, or not at all from the top two places, and is a permutation |
| Layering.MoveToBottomAsWrittenDropsAbove | src/layering.py:96-100 | as written, the layer is appended and the layer *above* it is deleted |
| Layering.MoveToBottomAsWrittenLosesLayer | src/layering.py:96-100 | as written, `[0, 1, 2]` with layer 1 becomes `[1, 2, 1]` |
| Layering.MoveToBottomPermutes | src/layering.py:96-100 | the corrected move puts the layer last, keeps the rest in order, and is a permutation |
| Layering.MoveDownAsWrittenOverwrites | src/layering.py:108-113 | as written, the layer below is deleted and the layer appears twice |
| Layering.MoveDownAsWrittenLosesLayer | src/layering.py:108-113 | as written, `[0, 1, 2]` with layer 0 becomes `[0, 0, 2]` |
| Layering.MoveDownPermutes | src/layering.py:108-113 | the corrected move swaps the layer with the one below it (none at the bottom) and is a permutation |
| Layering.MovesKeepDepth | src/layering.py:90-113 | for a layer in the stack, each of the four moves as written succeeds and keeps the number of layers |
| Layering.MovedToTop | src/layering.py:90-94 | `moveToTop` on the list; `MoveToTopPermutes` states its effect and `MovesKeepDepth` that it succeeds |
| Layering.MovedUp | src/layering.py:102-106 | `moveUp` on the list; `MoveUpPermutes` states its effect |
| Layering.MovedToBottomAsWritten | src/layering.py:96-100 | `moveToBottom` as written; `MoveToBottomAsWrittenDropsAbove` and `MoveToBottomAsWrittenLosesLayer` state its effect |
| Layering.MovedToBottom | src/layering.py:96-100 | the corrected `moveToBottom`; `MoveToBottomPermutes` states its effect |
| Layering.MovedDownAsWritten | src/layering.py:108-113 | `moveDown` as written; `MoveDownAsWrittenOverwrites` and `MoveDownAsWrittenLosesLayer` state its effect |
| Layering.MovedDown | src/layering.py:108-113 | the corrected `moveDown`; `MoveDownPermutes` states its effect |
| Layering.Layer.constructor | src/layering.py:124-129 | a new layer is unnamed, at `(0, 0)`, with no manager and no scheme |
| Layering.Layer.Reposition | src/layering.py:151-152 | sets the position and nothing else |
| Layering.Layer.Contains | src/layering.py:168-177 | a point is in the layer exactly when each coordinate lies between the position and the dimensions |
| Layering.Layer.ZIndex | src/layering.py:133 | the first place of the layer in its manager's stack; `AttributeError` without a manager, and `ValueError` exactly when it is not in the stack |
| Layering.Layer.DimensionArithmetic | src/layering.py:179-206 | `+` then `-` of the same operand restores the dimensions; a number acts as the pair `(n, n)`; 0 and 1 are the identities |
| Layering.ReflectedOperators | src/layering.py:194-208 | `n + layer`, `(w, h) + layer`, `n * layer` and `(w, h) * layer`, handled by `__radd__ = __add__` and `__rmul__ = __mul__`, combine the number or pair with the dimensions component by component |
| Layering.Layer.PositionalBounds | src/layering.py:154-162 | the x and y ranges from the position to the dimensions; `Contains` and `IsCollision` are stated through them |
| Layering.Layer.Add | src/layering.py:194-196 | `layer + other`; `DimensionArithmetic` and `ReflectedOperators` state it |
| Layering.Layer.Sub | src/layering.py:200-202 | `layer - other`; `DimensionArithmetic` states that it undoes `+` |
| Layering.Layer.Mul | src/layering.py:204-206 | `layer * other`; `DimensionArithmetic` and `ReflectedOperators` state it |
| Layering.FirstNamed | src/layering.py:41-45 | the first layer with the name, or none exactly when no layer has it |
| Layering.LayerManager.constructor | src/layering.py:23-25 | a new manager has an empty stack |
| Layering.LayerManager.ImportBaseScheme | src/layering.py:27-29 | sets the schema and keeps the stack |
| Layering.LayerManager.New | src/layering.py:31-39 | names, positions and adopts the layer, gives it its class's scheme entry if there is one, and pushes it on top; `AttributeError` before a schema is imported |
| Layering.LayerManager.GetLayerByName | src/layering.py:41-45 | the first layer with the name, or `False` |
| Layering.LayerManager.HasLayer | src/layering.py:47-50 | whether some layer has the name |
| Layering.LayerManager.GetStackPosition | src/layering.py:70-71 | the first position of the layer object; `ValueError` when it is absent |
| Layering.LayerManager.GetCurrentDepth | src/layering.py:73-74 | the number of layers: `New` raises it by one, `Destroy` lowers it by one, and the four moves of a layer the manager owns leave it unchanged |
| Layering.LayerManager.IsCollision | src/layering.py:63-68 | two named layers collide exactly when both their x and their y ranges overlap; an unknown name raises `AttributeError` |
| Layering.LayerManager.FirstNamedIsIndexed | src/layering.py:76-77 | the first layer with a name is at its own stack position |
| Layering.LayerManager.Destroy | src/layering.py:76-78 | removes the first layer with the name and keeps the rest in order; an unknown name raises `ValueError` |
| Layering.LayerManager.MoveToTop | src/layering.py:90-94 | the stack becomes `MovedToTop` of the old one; an unplaced layer raises |
| Layering.LayerManager.MoveUp | src/layering.py:102-106 | the stack becomes `MovedUp` of the old one; an unplaced layer raises |
| Layering.LayerManager.MoveToBottom | src/layering.py:96-100 | the stack becomes `MovedToBottomAsWritten` of the old one, as the source does it; an unplaced layer raises; an owned layer keeps the depth |
| Layering.LayerManager.MoveDown | src/layering.py:108-113 | the stack becomes `MovedDownAsWritten` of the old one, as the source does it; an unplaced layer raises; an owned layer keeps the depth |
| Layering.LayerManager.OwnZIndex | src/layering.py:133 | a layer the manager owns finds itself at its `zIndex` |
| Layering.LayerManager.RenderAll | src/layering.py:80-88 | renders bottom to top at each layer's opacity and leaves the stack as it was |

## Left out

- Drawing, fonts and I/O are not modelled: the cairo context, `__renderBorder`, `labelMaxDimensions`, `Layer.render` and `setDynamicSource`. `getDimensions` (font metrics) is an input of the axis, and so are the canvas geometry, the scheme's `padding` and its `steps`.
- Floating point is modelled as exact real arithmetic, so rounding error is not modelled.
- `int(s, 16)` in `hexToRGB` is modelled as hex digits with an optional leading `+` or `-`. Surrounding whitespace and a `0x` prefix are not accepted.
- `frange` is modelled as the list it would yield, not as a lazy generator.
- `roundUpToNearest` is modelled for the `Int` and `Float` inputs the axis passes it, and only with a nonzero `nearest`.
- Categories are values: `__importCategory` appends the series's own `Category` object, so later changes to one are seen through the other. That aliasing is not modelled.
- The `Series.__init__` dataset is a sequence of pairs. A Python `dict` iterates in an order the source does not control.
- `Series.count` is not modelled: it is missing `self` and raises `TypeError` on every call.
- `Graph.__init__` is modelled only for the empty `series` and `categories`. The output surface, the layer manager, the font book and the `extend` alias are left out.
- A category's data values are numbers (`Category.values` is a sequence of `Number`). A string data value is not modelled. In the source, a string among the data of a dependent axis counts as positive, and together with a negative value it makes `getWindow`'s arithmetic raise.
- Titles are compared with `==`. Python 2's ordering between strings and numbers (`'a' > 0`) is modelled by counting every string title as positive data.
- `getFontStyles` is modelled as a set. The list it returns may repeat a style, and its order follows dictionary order.
- `pathUpdate` runs `exec` with the key path quoted. The model treats a key as breaking the statement only when it holds a line feed or a NUL. A carriage return, non-ASCII text and any other `exec` failure are not modelled.
- `PresentationSchema.__getattr__` returns `None` for an unknown name. The model does not capture that real attributes shadow entries, and the `affects` field is not modelled.
- `LayerManager.__getattr__` and `getDimensions` are not modelled.
- `findLayersWithinBox` is not modelled: it indexes a layer as if it were a tuple, which raises.
- The `Layer` branch of `Layer.__contains__` is not modelled: it calls a missing `getLayerByName` with an undefined name, which raises.
- The Layer operators other than `+`, `-` and `*` are not modelled (`//`, `%` and the rest). The operands are integers only.
- `renderAll` returns the order and the opacities instead of calling `render`. An exception raised by `render` itself, which the handler retries at opacity 1, is not modelled.
- `zeroValue` in src/axis.py is never used and is not modelled.
- `LinearGradient` and `RadialGradient` build cairo patterns and are not modelled.
- Axis.Axis.PositionAt: states only when a position exists. Its formulas are given by `PositionAtHorizontal` and `PositionAtVertical`.
- Axis.Axis.Length: does not state the exact value for a fixed intercept. It states the bound by the canvas extent and the exact value for a free horizontal axis.
- Axis.Axis.RelZero: states only when it is defined. Its value is given by `RelZeroOf`, `RelZeroProportion` and `RelZeroWhenRatioEqualsBound`.

## Findings

| source | as written | input that shows it | evidently intended | confidence | as-written member | corrected member |
|---|---|---|---|---|---|---|
| src/layering.py:96-100 | `moveToBottom` appends the layer, then deletes index `zIndex - 1`: the layer above it, or the appended copy when the layer is on top | stack `[0, 1, 2]`, move layer 1 to the bottom: the result is `[1, 2, 1]`, where layer 0 is lost and layer 1 appears twice | delete the original at `zIndex`, so the layer is last and the rest keep their order | high (not executed) | Layering.MoveToBottomAsWrittenLosesLayer | Layering.MoveToBottomPermutes |
| src/layering.py:108-113 | `moveDown` inserts the layer at `zIndex + 2`, then deletes index `zIndex + 1`: the layer below it, not the original | stack `[0, 1, 2]`, move layer 0 down: the result is `[0, 0, 2]`, where layer 1 is lost | swap the layer with the one below it | medium (not executed; the method is marked "Work on this") | Layering.MoveDownAsWrittenLosesLayer | Layering.MoveDownPermutes |

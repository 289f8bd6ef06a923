# Symbology engine: a verified Dafny model

This project models the thematic-styling engine of the map client's
Symbology widget (`frontend/src/Widgets/Symbology.js`). The engine:

- takes the numeric values of one attribute field of a vector layer;
- cuts them into classes by equal interval, quantile or approximated natural breaks;
- stretches a five-colour palette to one colour per class by interpolating between its anchors;
- gives each feature the colour of the class its value falls in;
- remembers, per layer title, the last style applied, so that selecting the layer again restores it.

Modules:

- `Wrappers`: `Option` and `Result`.
- `JsMath`: `Math.round` and `Math.ceil` over reals.
- `HexColor`: `#rrggbb` parsing and formatting. Formatting followed by parsing gives the colour back.
- `Palette`: the nine built-in palettes, `interpolateColors` and `getColors`' choice of palette.
- `Classify`: the value sample, minimum and maximum, ascending sort, and the three break rules.
- `Buckets`: the class lookup inside the per-feature style function.
- `Symbology`: the widget as a class. Its fields are the selection, the settings, the current style and the style cache, which is a class of its own. Its methods are the apply, select-layer, select-field and setting handlers and the palette-swatch click.

Numbers are modelled as mathematical reals. Integers are unbounded.
`Math.round(x)` is the nearest integer, with ties going towards +∞; over the
reals this equals `floor(x + 1/2)`. `Math.ceil(x)` is `-floor(-x)`.

`interpolateColors` has three edge cases:

- An empty scheme fails with `InvalidScheme`.
- A count of one fails with `UndefinedAnchor`. The source computes `0/0`, so the anchor it looks up is `undefined` and calling `.match` on it throws.
- A count of zero or less returns no colours.

Quantile breaks round `i/k * (n-1)` half-up. For the values 1..10 and 5 classes this
gives the breaks `[1, 3, 5, 6, 8, 10]`: the rounded positions are 2, 4, 5
and 7, because 5.4 rounds to 5 and 7.2 rounds to 7.
`Classify.QuantileExample` proves this result.

## Model

| member | source | states |
|---|---|---|
| JsMath.Round | frontend/src/Widgets/Symbology.js:197 | `Math.round` lands within one half of its argument |
| JsMath.Ceil | frontend/src/Widgets/Symbology.js:146 | `Math.ceil` is the least integer not below its argument |
| HexColor.HexValue | frontend/src/Widgets/Symbology.js:152-153 | `parseInt` of one hex digit, in either case, is a value in 0..15 |
| HexColor.HexDigit | frontend/src/Widgets/Symbology.js:156 | `toString(16)` writes a value in 0..15 as one lower-case hex digit that `parseInt` reads back as that value |
| HexColor.ParseByte | frontend/src/Widgets/Symbology.js:152-153 | `parseInt` of a pair of hex digits is a channel value in 0..255 |
| HexColor.ByteHex | frontend/src/Widgets/Symbology.js:156 | a channel in 0..255 is written as two hex digits that parse back to it |
| HexColor.Decode | frontend/src/Widgets/Symbology.js:152-153 | the pairs of a well-formed `#rrggbb` parse to channels in 0..255 |
| HexColor.Encode | frontend/src/Widgets/Symbology.js:156-158 | an in-gamut colour is written as a well-formed `#rrggbb` that decodes back to it |
| Palette.PositionBounds | frontend/src/Widgets/Symbology.js:144-146 | the interpolation position `Position(i)`, that is `i/(count-1)*(L-1)`, of output `i` lies within the anchors, and its floor and ceiling are valid anchor indexes |
| Palette.Lerp | frontend/src/Widgets/Symbology.js:155 | a rounded blend of two channels with a fraction in (0,1) lies between them |
| Palette.Mix | frontend/src/Widgets/Symbology.js:151-157 | blending two in-gamut colours stays in gamut, and each channel lies between the two anchors' channels |
| Palette.ColorAt | frontend/src/Widgets/Symbology.js:144-159 | the colour pushed for output `i` is a well-formed `#rrggbb` |
| Palette.PositionColor | frontend/src/Widgets/Symbology.js:144-159 | one pass of the loop body pushes exactly the colour for position `i` |
| Palette.Stretch | frontend/src/Widgets/Symbology.js:142-161 | the colours for `count >= 2` outputs: exactly `count` well-formed colours, the first being the first anchor and the last the last anchor |
| Palette.Interpolation | frontend/src/Widgets/Symbology.js:137-162 | `interpolateColors` throws exactly on an empty scheme and on a single output colour (`InvalidScheme` exactly for the empty scheme), returns no colours for a count of zero or less, and otherwise returns `count` well-formed colours from the first anchor to the last |
| Palette.InterpolateColors | frontend/src/Widgets/Symbology.js:137-162 | the loop returns exactly what `interpolateColors` returns or throws, for every count |
| Palette.AnchorCopied | frontend/src/Widgets/Symbology.js:148-149 | a position that falls on an anchor copies that anchor unchanged |
| Palette.BetweenNeighbours | frontend/src/Widgets/Symbology.js:150-158 | a position between anchors gives a colour whose channels lie between those of its two neighbouring anchors |
| Palette.SameCountKeepsAnchors | frontend/src/Widgets/Symbology.js:142-161 | asking for as many colours as there are anchors returns the anchors |
| Palette.BlackToWhiteInThree | frontend/src/Widgets/Symbology.js:137-162 | black to white in three steps gives black, `#808080`, white |
| Palette.FamiliesWellFormed | frontend/src/Widgets/Symbology.js:16-32 | every palette of every family that `SchemeFamily` knows (sequential, diverging, qualitative) has five well-formed anchors |
| Palette.SelectedScheme | frontend/src/Widgets/Symbology.js:164-170 | `getColors` uses palette `index` of the family, or falls back to the first sequential palette when the family is unknown or the index is past its end |
| Palette.SchemeColors | frontend/src/Widgets/Symbology.js:164-172 | `getColors` never fails for two or more classes and yields one well-formed colour per class |
| Palette.DistinctPalettesDiffer | frontend/src/Widgets/Symbology.js:16-32 | two different palettes of one family never give the same colours |
| Palette.FirstAnchorsDistinct | frontend/src/Widgets/Symbology.js:16-32 | the palettes of one family start with different colours |
| Classify.Sample | frontend/src/Widgets/Symbology.js:180-181 | the sample holds a value exactly when some feature carries it, and is no longer than the feature list |
| Classify.SampleCounts | frontend/src/Widgets/Symbology.js:180-181 | each value occurs in the sample exactly as often as features carry it |
| Classify.SampleConcat | frontend/src/Widgets/Symbology.js:180-181 | the filter keeps feature order: the sample of two runs of features is the first run's sample followed by the second's |
| Classify.Minimum | frontend/src/Widgets/Symbology.js:183 | `Math.min` of the sample is one of its values and no value is below it |
| Classify.Maximum | frontend/src/Widgets/Symbology.js:184 | `Math.max` of the sample is one of its values and no value is above it |
| Classify.Insert | frontend/src/Widgets/Symbology.js:194 | inserting into a sorted sequence keeps it sorted and adds exactly that value |
| Classify.SortAscending | frontend/src/Widgets/Symbology.js:194 | the numeric sort is ascending and a permutation of the sample |
| Classify.SortedStaysPut | frontend/src/Widgets/Symbology.js:194 | sorting an already sorted sample changes nothing |
| Classify.EqualIntervalProperties | frontend/src/Widgets/Symbology.js:188-191 | the equal-interval breaks `EqualIntervalBreaks` are `k+1` ascending values from min to max whose steps are all `(max-min)/k` |
| Classify.QuantileIndex | frontend/src/Widgets/Symbology.js:197 | the rounded quantile position is a valid index into the sorted sample |
| Classify.QuantileIndexIsRound | frontend/src/Widgets/Symbology.js:197 | the whole-number quantile position is exactly `Math.round((i / k) * (n - 1))` |
| Classify.QuotientIsDivision | frontend/src/Widgets/Symbology.js:197 | the repeated-subtraction quotient used for the rounded position is whole-number division |
| Classify.QuantileIndexMonotone | frontend/src/Widgets/Symbology.js:197 | later breaks never use an earlier sorted position |
| Classify.QuantileProperties | frontend/src/Widgets/Symbology.js:193-201 | the quantile breaks `QuantileBreaks` are `k+1` ascending values from min to max, each one a value of the sample |
| Classify.QuantileMembers | frontend/src/Widgets/Symbology.js:194-200 | every quantile break is a value of the sample, within its range |
| Classify.QuantileSteps | frontend/src/Widgets/Symbology.js:194-200 | each quantile break is at most the next one |
| Classify.QuantileStep | frontend/src/Widgets/Symbology.js:194-200 | quantile break `i` is at most break `i+1` |
| Classify.QuantileEnds | frontend/src/Widgets/Symbology.js:193-201 | the quantile breaks start at the sample's minimum and end at its maximum |
| Classify.BuildQuantileBreaks | frontend/src/Widgets/Symbology.js:193-201 | the loop builds exactly the quantile breaks |
| Classify.InnerQuantileBreak | frontend/src/Widgets/Symbology.js:197-198 | one pass of the loop body computes inner quantile break `i`: the sorted value at the rounded position |
| Classify.SortedQuantileBreak | frontend/src/Widgets/Symbology.js:194-198 | on an already sorted sample, quantile break `i` is the value at the rounded position itself |
| Classify.NaturalInnerBounds | frontend/src/Widgets/Symbology.js:205-207 | inner break `i` of `NaturalBreaksApprox` is `min + (2i+1)` half-widths (`HalfWidth` is `(max-min)/(2k)`), and lies between three half-widths above min and one half-width below max |
| Classify.NaturalBreaksProperties | frontend/src/Widgets/Symbology.js:203-210 | the approximated natural breaks `NaturalBreaksApprox` are `k+1` ascending values from min to max, with inner breaks strictly inside a non-degenerate range |
| Classify.BuildNaturalBreaks | frontend/src/Widgets/Symbology.js:203-210 | the loop builds exactly the approximated natural breaks |
| Classify.Breaks | frontend/src/Widgets/Symbology.js:187-214 | whatever the method, the breaks are `k+1` ascending values from the sample's min to its max |
| Classify.ComputeBreaks | frontend/src/Widgets/Symbology.js:183-214 | the break computation returns the method's breaks, sorted, with the sample's min and max at the ends |
| Classify.EqualIntervalExample | frontend/src/Widgets/Symbology.js:188-191 | `[0,10,20,30,40]` with 4 classes gives those same breaks |
| Classify.QuantileExample | frontend/src/Widgets/Symbology.js:193-201 | 1..10 with 5 quantile classes gives `[1,3,5,6,8,10]` |
| Classify.QuantileIndexExample | frontend/src/Widgets/Symbology.js:197 | for 10 values and 5 classes the rounded positions are 2, 4, 5 and 7 |
| Buckets.ScanFrom | frontend/src/Widgets/Symbology.js:223-228 | the scan from class `from` stops at the first class holding the value, or falls back to 0 |
| Buckets.Bucket | frontend/src/Widgets/Symbology.js:221-228 | the class index is a valid class, the first one whose closed interval holds the value, and 0 when none does |
| Buckets.StyleColor | frontend/src/Widgets/Symbology.js:219-230 | the feature loop picks `Bucket`'s class and its colour, and a colour always exists when there is one per class |
| Buckets.ClassExists | frontend/src/Widgets/Symbology.js:223-228 | a value within sorted breaks lies in some class at or after the scan's start |
| Buckets.InRangeIsClassified | frontend/src/Widgets/Symbology.js:223-228 | a value between the first and last break is placed in a class that holds it |
| Buckets.OutOfRangeFallsBack | frontend/src/Widgets/Symbology.js:221-228 | a value outside the breaks is in no class and gets class 0 |
| Buckets.BoundaryGoesLower | frontend/src/Widgets/Symbology.js:224 | a value equal to an inner break goes to a lower class, and to the class just below when the breaks step up there |
| Buckets.BoundaryExample | frontend/src/Widgets/Symbology.js:224 | with breaks `[0,10,20]` the value 10 gets class 0 |
| Symbology.StyleCache.constructor | frontend/src/Widgets/Symbology.js:50 | the cache starts empty |
| Symbology.StyleCache.Put | frontend/src/Widgets/Symbology.js:254-268 | storing a title's entry replaces that entry and keeps every other one |
| Symbology.StyleCache.Get | frontend/src/Widgets/Symbology.js:322 | a lookup finds an entry exactly when the title is cached, and returns the stored entry |
| Symbology.SymbologyWidget.constructor | frontend/src/Widgets/Symbology.js:45-59 | the initial selection, settings and empty cache |
| Symbology.SymbologyWidget.GetColors | frontend/src/Widgets/Symbology.js:164-172 | `getColors` interpolates the selected (or fallback) palette and never fails for a valid class count |
| Symbology.SymbologyWidget.ApplyStyle | frontend/src/Widgets/Symbology.js:174-268 | with no layer or field nothing changes; otherwise the current method's breaks over the non-missing values and the given or scheme colours become the current style and the layer's cache entry, other titles' entries are kept, and every cached entry keeps valid sorted breaks and one colour per class, so the shown style has one colour fewer than breaks |
| Symbology.SymbologyWidget.ClassifyField | frontend/src/Widgets/Symbology.js:180-217 | the style computation yields the sample's range and `Classified`, the entry lines 256-266 record for the current settings, whose breaks are valid and sorted and whose colours number one per class |
| Symbology.SymbologyWidget.Show | frontend/src/Widgets/Symbology.js:243-268 | the applied style becomes the current style and the layer's cache entry |
| Symbology.SymbologyWidget.SelectLayer | frontend/src/Widgets/Symbology.js:314-349 | selecting a cached layer restores its settings and style, with one colour per class; selecting an uncached one clears the field and style and resets the index and options |
| Symbology.SymbologyWidget.SelectField | frontend/src/Widgets/Symbology.js:370-373 | choosing a field resets the scheme index |
| Symbology.SymbologyWidget.SetClassCount | frontend/src/Widgets/Symbology.js:393-398 | the class count is set within its 2..10 range, and the widget invariant holds |
| Symbology.SymbologyWidget.SetClassMethod | frontend/src/Widgets/Symbology.js:413 | the classification method is set |
| Symbology.SymbologyWidget.SetColorScheme | frontend/src/Widgets/Symbology.js:485-488 | choosing a family resets the scheme index |
| Symbology.SymbologyWidget.ClickSchemeAsWritten | frontend/src/Widgets/Symbology.js:537-541 | the swatch click shows palette `i`'s colours as the current style (with the field's breaks and range) and caches them under the previously selected index |
| Symbology.SymbologyWidget.ClickScheme | frontend/src/Widgets/Symbology.js:537-541 | with the index updated first, the click shows palette `i`'s colours as the current style and the cached entry names the palette whose colours it holds |
| Symbology.StaleIndexInconsistent | frontend/src/Widgets/Symbology.js:537-541 | an entry holding one palette's colours under another palette's index is inconsistent |
| Symbology.StaleSchemeIndexScenario | frontend/src/Widgets/Symbology.js:537-541 | for any layer title and non-empty field with at least one value, select the layer and the field, click palette 1: the entry says palette 0 and is inconsistent |
| Symbology.SchemeIndexScenario | frontend/src/Widgets/Symbology.js:537-541 | the same clicks with the corrected handler give a consistent entry for palette 1 |
| Symbology.ApplyThenReselect | frontend/src/Widgets/Symbology.js:322-338 | applying a style, selecting another layer and coming back restores the applied settings, breaks and colours |

## Left out

- The OpenLayers map, the layers' sources and features, `setStyle`, and `layer.set('currentStyle')` (including the effect at lines 122-131) are not modelled. Feature values reach the model as a sequence of optional numbers.
- `getStyleForGeometry`, the opacity-to-hex conversion and the per-geometry style objects are not modelled. The model stops at the colour chosen for a feature. `frontend/src/utils/geomUtils.js` is not part of this model.
- Not modelled: the React rendering, the modal, the tooltips, the legend and its `toFixed` labels, layer discovery and field discovery (lines 61-120), and the hover effects.
- The repository's other widgets are not part of this model: `AddData.js`, `MeasurementTool.js`, `FeatureInfo.js`, `NavigationTool.js` and `SelectFeature.js`. They hold layer construction, network I/O, drawing, popups and geolocation, with no classification logic.
- `message` and `console.error` notifications are not modelled. Their only effect is on the screen.
- JsMath.Round: does not model `-0` or the rounding of `x + 0.5` in binary floating point, where `Math.round` and `Math.floor(x + 0.5)` can differ; over the reals the two agree.
- Floating point is not modelled. Reals are used throughout, so rounding error in `min + interval * i` and in the interpolation position is not captured. The last equal-interval break is exactly `max` in the model.
- Non-numeric feature values are not modelled. This covers strings that pass the `!= null` filter, and null values coerced to 0 in the style function's comparisons.
- Symbology.SymbologyWidget.ApplyStyle: requires a non-empty sample when a layer and a field are selected. With no values the source computes `Math.min()` = Infinity and `Math.max()` = -Infinity, which reals cannot represent.
- Symbology.SymbologyWidget.ApplyStyle: requires given colours to number `classCount`, as both callers supply (`null` at line 298, colours interpolated to `classCount` at line 540).
- Symbology.SymbologyWidget.ApplyStyle: the `catch` branch is not modelled. In the model no step inside the `try` can fail, because the class count is at least two and every palette is well-formed.
- Palette.InterpolateColors: requires well-formed `#rrggbb` anchors. Malformed anchor strings, and arguments that are not arrays, are not modelled. Every built-in palette is proved well-formed.
- Symbology.SymbologyWidget.SetClassCount: requires an integer from 2 to 10. A cleared input, which yields null, and fractional counts are not modelled.
- Symbology.SymbologyWidget.SelectLayer: a title with no matching layer (`find` returns `undefined`) is not modelled. The model selects the title itself.
- The geometry type is not computed. `getGeometryType` is an input of `SelectLayer`.
- The scheme index is a natural number. A negative index is not modelled.
- The `closeOnSuccess` flag and modal visibility are not modelled.

## Findings

| source | as written | input that shows it | evidently intended | confidence | as-written member | corrected member |
|---|---|---|---|---|---|---|
| frontend/src/Widgets/Symbology.js:537-541 | the swatch click schedules `setSelectedSchemeIndex(i)`, then `handleApplyStyle` runs with the index from before the click, so the cache entry pairs palette `i`'s colours with the old index | select a layer and a field (index reset to 0), then click the second sequential palette: the entry says index 0 but holds the Greens colours; re-selecting the layer highlights Reds | the cached entry records the index of the palette whose colours it holds | not executed | Symbology.SymbologyWidget.ClickSchemeAsWritten, Symbology.StaleSchemeIndexScenario | Symbology.SymbologyWidget.ClickScheme, Symbology.SchemeIndexScenario |

# SimpleLine connector, modelled in Dafny

SimpleLine draws a curved SVG arrow between two page elements and keeps it attached while they move. This project models the parts of `simpleline.js` and `css-calc.js` that decide what is drawn and how the line's state changes. The browser's answers come in as parameters:

- the elements' offsets, positions and sizes;
- whether a container exists;
- `calc`, `Number(s)` and `Math.sqrt`.

Modules:

- `CssCalc`: the CSS unit tables and `convert`. This covers the `Absolute` ratios, the `Relative` units read from an explicit measurement context, and their union `Units` looked up by name. `convert`'s division is modelled with JavaScript's NaN and infinities kept apart.
- `JsMath`: `Math.min` and `Math.max`.
- `JsValues`: the JavaScript values a configuration can hold. Objects are ordered property lists and arrays are sequences. The module also has the property reads `hasOwnProperty`/`v[key]` and the property write `v[key] = x`.
- `SpecsMerge`: `specsCopy`, which merges a user configuration onto the defaults.
  - `Merge` is its specification. `SpecsCopy` is the source's loop, proved equal to `Merge`.
  - The lemmas state the merge rules and say when a TypeError can escape.
- `Anchors`: `getAnchorPoint` (the nine anchor placements and the keyword precedence) and the arrow-head pull-back of the end anchor.
- `Curve`: the arithmetic of `update`:
  - the spans and the weight;
  - the control points `anchor + dir × gravity × weight`;
  - the bounding box with its margin;
  - the move into box coordinates.
- `Connector`: the class `SimpleLine`.
  - Its fields are `specs`, `active`, the observers flag, the timer period, the offset snapshots, and what was last written to the SVG and the path.
  - Its methods are the constructor, `update`, `setConfig`, the `cssClass` setter, `positionCheck` and `remove`. The constructor runs in two halves: `Configure` (its `setConfig` call) and `Activate` (observing, the first offsets, the timer and the first draw).
  - `IdCounter` models the class-wide `idCounter`.

`update`'s effect is specified by the function `Repaint`, built on the pure `Draw`. Every method that redraws is proved to leave the SVG and the path as `Repaint` says.

## Model

| member | source | states |
|---|---|---|
| CssCalc.LookupUnit | css-calc.js:106-109 | `Units[name]` finds exactly the unit whose key is `name`, and nothing for any other name |
| CssCalc.LookupUnitName | css-calc.js:106-109 | every unit is found under its own key |
| CssCalc.AbsolutePx | css-calc.js:11-26 | every absolute unit is a positive number of pixels |
| CssCalc.Divide | css-calc.js:133 | JavaScript `/`: finite exactly when the divisor is nonzero, and then the quotient times the divisor is the dividend; 0/0 is NaN; a positive number over 0 is +Infinity |
| CssCalc.Convert | css-calc.js:125-134 | an unknown unit on either side gives NaN; a finite result times one destination unit in pixels equals the source amount in pixels |
| CssCalc.BasePxLinear | css-calc.js:29-104 | every unit, absolute or relative, is linear: `count` units are `count` times one unit |
| CssCalc.VminAtMostVmax | css-calc.js:51-73 | one vmin is never more than one vmax |
| CssCalc.AbsoluteToPx | css-calc.js:125-134 | converting an absolute unit to px multiplies by its ratio in the table |
| CssCalc.KnownPixelRatios | css-calc.js:14-25 | 1in = 96px, 1cm = 96/2.54px, 1pc = 16px, 1pt = 4/3px |
| CssCalc.AbsoluteIgnoresContext | css-calc.js:125-134 | absolute-to-absolute conversion does not depend on the context and is the ratio of the two table entries |
| CssCalc.InchAndPicaInPoints | css-calc.js:20-25 | 1in = 72pt, 1pc = 12pt, 1in = 2.54cm, as the table's comments say |
| CssCalc.ConvertIdentity | css-calc.js:125-134 | converting a unit to itself returns the amount whenever that unit is not zero pixels |
| CssCalc.ZeroSizedDestination | css-calc.js:131-133 | a zero-pixel destination unit never gives a finite result; the result is NaN exactly when the source is zero pixels too |
| CssCalc.ConvertKnownUnits | css-calc.js:125-134 | between known units, `convert` divides the source pixels by one destination unit |
| CssCalc.DivideBack | css-calc.js:133 | a division by `pb` of `n·pa` is undone by multiplying by `pb` and dividing by `pa` |
| CssCalc.PixelsBack | css-calc.js:125-134 | if `n` units of a are `m` units of b, then `m` units of b are `n` units of a |
| CssCalc.ConvertRoundTrip | css-calc.js:125-134 | converting a→b and back b→a returns the original amount (both units nonzero) |
| JsMath.Min | css-calc.js:54 | `Math.min` is a lower bound equal to one of its arguments |
| JsMath.Max | css-calc.js:68 | `Math.max` is an upper bound equal to one of its arguments |
| JsValues.Keys | simpleline.js:38 | the `for … in` key list has one key per property, in order |
| JsValues.FindPropFinds | simpleline.js:39 | a key is found exactly when the object has it, and the value found is the one stored under it |
| JsValues.SetProp | simpleline.js:227 | assigning an existing key keeps the key list; assigning a new key appends it |
| JsValues.SetPropThenFind | simpleline.js:227 | after `v[key] = x`, `v[key]` reads `x` and every other key reads as before |
| JsValues.DecimalString | simpleline.js:39 | an array index key is a non-empty string of decimal digits |
| JsValues.IndexKey | simpleline.js:39 | an array owns a key exactly when some index in range spells it |
| JsValues.DecimalStringInjective | simpleline.js:39 | two indices with the same decimal key are the same index |
| JsValues.ArrayKeyReadsItem | simpleline.js:39-41 | reading an array at the decimal key of index `k` gives the item at `k` |
| JsValues.OwnProperty | simpleline.js:39-41 | `hasOwnProperty`/read on an object is the property lookup; on an array, "length" is the length, any other key is owned exactly when it is the decimal spelling of an index in range, and then it reads the item at that index |
| JsValues.GetMissingKey | simpleline.js:219 | reading a key an object lacks gives `undefined` |
| SpecsMerge.SpecsCopy | simpleline.js:37-56 | the in-place loop yields exactly the target and TypeError outcome that `Merge` specifies |
| SpecsMerge.CopyKey | simpleline.js:39-54 | one pass of the loop body computes the new value of `to[ix]` as `VisitKey` specifies, recursing into nested objects |
| SpecsMerge.MergePropsAt | simpleline.js:38-55 | every property keeps its key and position; a key `from` does not own is untouched; unless the loop threw, the property holds what its visit computed |
| SpecsMerge.MergeKeepsKeys | simpleline.js:37-56 | `specsCopy` never adds, removes or reorders keys of `to` |
| SpecsMerge.MergeKeepsUnownedKey | simpleline.js:39 | a key of `to` that `from` does not own keeps its value, even when another key throws |
| SpecsMerge.MergeOwnedKey | simpleline.js:40-53 | in a merge that did not throw, for an owned key: array over array is a copy; an array is kept against null or an object; an object or null target is merged recursively with any object; every other pair is overwritten |
| SpecsMerge.MergeWithoutNullNeverThrows | simpleline.js:39 | a configuration with no null at any depth is always copied without a TypeError |
| SpecsMerge.MergeEmptySource | simpleline.js:37-56 | merging an empty object changes nothing |
| Anchors.Includes | simpleline.js:281-294 | `includes` exists only on arrays and strings; on an array it holds exactly when some item is the string `word`, on a string exactly when `word` occurs at some position |
| Anchors.SubstringOccurs | simpleline.js:281-294 | the substring search succeeds exactly when the word occurs at some position of the string |
| Anchors.GetAnchorPoint | simpleline.js:270-303 | an anchor is resolved exactly when the keyword holder has an `includes` method |
| Anchors.Placement | simpleline.js:281-302 | every documented keyword pair stands for one of the nine placements |
| Anchors.AnchorIsPlacement | simpleline.js:281-302 | whatever the keywords, each axis resolves to 0 with direction −1, `size − 1` with +1, or `size / 2` with 0 |
| Anchors.KeywordPairResolves | simpleline.js:270-303 | each vertical/horizontal keyword pair, in either order, resolves to its placement |
| Anchors.NoKeywordsMeansCentre | simpleline.js:287-299 | a list naming no side resolves to the centre with direction (0, 0) |
| Anchors.KeywordPrecedence | simpleline.js:281-299 | on each axis, whatever else the list holds: "left" gives x = 0 heading −1, else "right" gives `width − 1` heading +1, else the centre `width / 2` with no heading; the same for "top", "bottom" and the height |
| Anchors.MembershipNotPosition | simpleline.js:281-294 | two keyword lists with the same members resolve alike |
| Anchors.StringAnchorsMatchSubstrings | simpleline.js:281-294 | a string is searched for substrings, so "topleft" is the top-left corner |
| Anchors.PullBack | simpleline.js:358-361 | the pull-back keeps the direction and moves only along axes with a nonzero direction |
| Anchors.PullBackLeavesElement | simpleline.js:358-361 | with a positive stroke the end point moves 1.5 × stroke beyond the element's edge along its direction |
| Curve.Min4 | simpleline.js:398-403 | the four-argument `Math.min` is a lower bound equal to one argument |
| Curve.Max4 | simpleline.js:400-403 | the four-argument `Math.max` is an upper bound equal to one argument |
| Curve.Span | simpleline.js:372-375 | `max − min` of two coordinates is their non-negative distance |
| Curve.WeightIsHalfDistance | simpleline.js:376 | where the square root is exact, the weight is half the straight distance between the anchors |
| Curve.ControlOffset | simpleline.js:378-390 | each end point is its element's position plus the anchor, and its control point lies `dir × gravity × weight` away from it |
| Curve.BoundsKeepMargin | simpleline.js:397-404 | the box holds all four points with the margin to spare on every side |
| Curve.LocalPointsInsideMargin | simpleline.js:407-418 | in box coordinates every point lies in `[margin, w − margin] × [margin, h − margin]` |
| Curve.BoundsAreTight | simpleline.js:397-418 | some point lies exactly one margin from each of the box's four sides |
| Curve.BoundsAtLeastTwoMargins | simpleline.js:400-403 | the box is at least two margins wide and high |
| Curve.LayoutInsideMargin | simpleline.js:378-418 | the laid-out curve lies inside its box with the margin on every side |
| Curve.ControlPointsFollowDirection | simpleline.js:378-418 | in box coordinates each control point is still its end point plus `dir × gravity × weight` |
| Curve.ZeroGravityIsStraight | simpleline.js:378-390 | with gravity 0 at both ends the control points coincide with the end points |
| Curve.EndsKeepTheirDistance | simpleline.js:372-418 | the end points in box coordinates are as far apart as the anchors in the container |
| Curve.LayoutTranslationInvariant | simpleline.js:372-418 | moving both elements by (dx, dy) moves the box by (dx, dy) and changes nothing inside it |
| Curve.BoundsShift | simpleline.js:397-418 | moving all four points by (dx, dy) moves the box by (dx, dy), keeps its size, and leaves the points where they were in box coordinates |
| Curve.ExampleCurveEnds | simpleline.js:378-390 | the worked example's end and control points in container coordinates |
| Curve.ExampleBox | simpleline.js:397-404 | the worked example's box is 445×50 at (74, 0) |
| Curve.ExampleSpans | simpleline.js:372-376 | the worked example's spans are 395 and 0, and 197.5 is half their distance |
| Curve.ExampleLayout | simpleline.js:378-418 | the worked example draws from (25, 25) to (420, 25) with both control points at x = 222.5 |
| Curve.ExampleWeight | simpleline.js:376 | with a square root exact on 395², the weight of the example is 197.5 |
| Connector.Defaults | simpleline.js:183-198 | the default configuration is a plain object |
| Connector.DefaultsShape | simpleline.js:183-198 | the defaults have six distinct keys: autorefresh, class, color, anchors, gravity, stroke |
| Connector.RefreshPeriod | simpleline.js:169-171 | a running timer always has a positive period |
| Connector.RefreshTimerRuns | simpleline.js:169-171 | the timer runs exactly when `specs.autorefresh > 0`: a number runs it at that period exactly when positive, `true` runs it every 1 ms, a string exactly when `Number(s)` is positive and then at that period, and `undefined`, null and `false` never do |
| Connector.DefaultRefreshPeriod | simpleline.js:184 | the defaults refresh every 10 ms |
| Connector.AnchorOf | simpleline.js:270-303 | an end's anchor resolves exactly when `specs.anchors` is neither null nor undefined and its entry has `includes` |
| Connector.AnyOtherNameIsEnd | simpleline.js:272-276 | any anchor name other than "start" reads the end element |
| Connector.Draw | simpleline.js:355-418 | the geometry fails exactly where the source throws: an anchor that does not resolve, a stroke that is not a string, a stroke `calc` throws on, or a null or undefined gravity. Without a failure, the coordinates are not finite exactly when `calc` gives no number or a gravity does not convert to one. A drawn curve lies inside its box with the margin on every side |
| Connector.DrawnBoxFitsStroke | simpleline.js:396-404 | a drawn box is at least ten strokes wide and high when the stroke reads as a number, and at least 50 pixels otherwise |
| Connector.Repaint | simpleline.js:330-418 | nothing changes unless the line is active and has a container; otherwise an SVG exists afterwards; it throws exactly when the geometry fails, and then the path is unchanged; success leaves a path |
| Connector.RepaintKeepsCurveInFrame | simpleline.js:330-418 | a repaint that draws frames the SVG on the box and traces the path inside it with the margin to spare |
| Connector.InactiveRepaintIsNoOp | simpleline.js:331 | an inactive line's `update` changes nothing and cannot throw |
| Connector.DrawResolved | simpleline.js:355-418 | once both anchors, the stroke and both gravities resolve, `update` lays out the curve from them with the pulled-back end anchor and the spans' weight |
| Connector.DefaultStroke | simpleline.js:197 | the default stroke is the string "4px" |
| Connector.DefaultGravity | simpleline.js:193-196 | both default gravities are the number 1 |
| Connector.DefaultAnchorEntries | simpleline.js:187-192 | the default anchors are ["middle", "right"] at the start and ["middle", "left"] at the end |
| Connector.DefaultStartAnchor | simpleline.js:187-192 | by default a 100×50 start element is anchored at (99, 25), heading right |
| Connector.DefaultEndAnchor | simpleline.js:187-192 | by default a 100×50 end element is anchored at (0, 25), heading left |
| Connector.ResolvedExample | simpleline.js:355-418 | any configuration that resolves like the defaults draws the worked example |
| Connector.ExampleOnPage | simpleline.js:372-418 | on a page that places the two elements 500px apart, the pulled-back anchors give a 445×50 box at (74, 0) and a curve from (25, 25) to (420, 25) |
| Connector.DefaultsDrawExample | simpleline.js:183-198 | two 100×50 elements 500px apart under the defaults give a 445×50 box at (74, 0) and a curve from (25, 25) to (420, 25) |
| Connector.ResolvesAsWritten | simpleline.js:115-142 | as written, an element is accepted, a string selector exactly when `querySelector` gives an `HTMLElement`, and a `String` object never |
| Connector.Resolves | simpleline.js:115-142 | an element is always accepted; a selector, primitive or `String` object, is accepted exactly when `querySelector` gives an `HTMLElement`; anything else is rejected |
| Connector.LookupThrows | simpleline.js:117-134 | a selector `querySelector` throws on is never accepted; an element or a value of another type never throws |
| Connector.ResolveEnds | simpleline.js:114-142 | both ends resolve exactly when each does; resolution throws exactly when the start's selector is invalid, or the start resolves and the end's selector is invalid |
| Connector.RejectedStartHidesEnd | simpleline.js:114-127 | once the start is rejected without a throw, the end is never looked at, so even an invalid end selector cannot throw |
| Connector.StringObjectRejectedAsWritten | simpleline.js:117 | the code as written and the intended test differ exactly on a `String` object that names an element |
| Connector.Reconfigured | simpleline.js:200-202 | the merged configuration is an object; a value that is not an object or array (null included) leaves the specs as they are |
| Connector.ReconfiguredKeepsKeys | simpleline.js:200-202 | merging a configuration neither adds nor drops a key of the specs |
| Connector.IdCounter.constructor | simpleline.js:99 | the counter starts at 0 |
| Connector.IdCounter.Allocate | simpleline.js:111 | `idCounter++` hands out the current value and increments the counter |
| Connector.SimpleLine.constructor | simpleline.js:109-174 | takes the next id and installs the merged defaults; the line holds both elements exactly when the merge did not throw and both ends resolve, and then observes them; it becomes active exactly when, in addition, both elements have a parent; an inactive line has no SVG, path or timer, and its construction threw exactly when the merge threw, resolution threw, or observing a missing parent threw; an active one holds both offset snapshots and the refresh period, and has drawn once, its construction throwing exactly when that first draw does |
| Connector.SimpleLine.Configure | simpleline.js:182-202 | on a new line, `setConfig` installs the defaults merged with the configuration, reports whether the merge threw, and leaves the SVG, path and timer unset |
| Connector.SimpleLine.Activate | simpleline.js:145-173 | once both ends resolve, the observers exist; without a parent for both elements it throws and stays inactive, with no SVG, path or timer; otherwise both offset snapshots are taken, the timer runs at the refresh period, the line is active and has drawn once as `Repaint` specifies |
| Connector.SimpleLine.Update | simpleline.js:330-452 | only the SVG and the path change, exactly as `Repaint` specifies |
| Connector.SimpleLine.SetConfig | simpleline.js:180-213 | installs the defaults when there are no specs and merges the configuration into them; after a TypeError or while there is no SVG, the SVG, path and timer are unchanged; otherwise the timer restarts with the new period and the line repaints |
| Connector.SimpleLine.SetCssClass | simpleline.js:225-229 | afterwards `cssClass` reads the new class, every other configuration key reads as before, and the line repaints |
| Connector.SimpleLine.PositionCheck | simpleline.js:234-255 | without both elements it throws and changes nothing; otherwise it stores both current offsets and redraws exactly when a previous snapshot differs from them; the first call never redraws |
| Connector.SimpleLine.Remove | simpleline.js:457-469 | throws without changes when there is no SVG; otherwise clears the SVG, path and timer, then stops the observers and deactivates the line, or throws when there are no observers |

Several functions carry no contract of their own; the lemmas above state what they promise:

- `CssCalc.RelativePx`, `CssCalc.BasePx` and `CssCalc.UnitPx`: `BasePxLinear`, `VminAtMostVmax`, `Convert` and `ConvertKnownUnits`.
- `Curve.Weight`: `WeightIsHalfDistance` and `ExampleWeight`.
- `Curve.AnchorAt`: `ControlOffset`.
- `Curve.ToLocal`: `LocalPointsInsideMargin`, `EndsKeepTheirDistance` and `BoundsShift`.
- `Anchors.ResolveAxis`: `KeywordPrecedence`, `AnchorIsPlacement` and `NoKeywordsMeansCentre`.
- `SpecsMerge.CopyEntry` and `SpecsMerge.VisitKey`: `CopyKey` and `MergeOwnedKey`.
- `SpecsMerge.MergeProps`: `MergePropsAt`, `MergeKeepsKeys` and `SpecsCopy`.
- `JsValues.FindProp`: `FindPropFinds`.
- `Curve.CurveEndAt`: `ControlOffset`, `ControlPointsFollowDirection` and `ZeroGravityIsStraight`.
- `Curve.Margin`: `DrawnBoxFitsStroke` and `ExampleOnPage`.
- `Curve.BoundsOf`: `BoundsKeepMargin`, `BoundsAreTight`, `BoundsAtLeastTwoMargins` and `BoundsShift`.
- `Curve.Layout`: `LayoutInsideMargin`, `ControlPointsFollowDirection`, `EndsKeepTheirDistance` and `LayoutTranslationInvariant`.
- `SpecsMerge.Merge`: `SpecsCopy`, `MergePropsAt`, `MergeKeepsKeys`, `MergeKeepsUnownedKey`, `MergeOwnedKey`, `MergeWithoutNullNeverThrows` and `MergeEmptySource`.
- `JsValues.Get`: `OwnProperty` and `GetMissingKey`.
- `Connector.NumberValue`: `RefreshTimerRuns` and `DefaultGravity`.
- `Connector.SimpleLine.CssClass`: `SetCssClass`.

## Left out

- DOM measurement is not modelled. This covers `getElementPosition`, `getContainer` (with `getComputedStyle`), `calcCtx`, `querySelector` and `parentElement`. Their results are fields of `Page` and of the element arguments:
  - the elements' offsets, positions and sizes;
  - whether a container exists;
  - whether both elements have a parent;
  - whether a selector finds an element, finds none, or is invalid (a SyntaxError). `calcCtx`'s results are the `Ctx` argument of `Convert`.
- `convertAllInStr`, `calc` and its `eval` are not modelled, because they depend on regular-expression replacement, float-to-string conversion and `eval`. `Page.evaluate` stands for `calc(stroke)`, with three outcomes:
  - `Throws`: the call throws. This covers a SyntaxError or ReferenceError from `eval`.
  - `NotANumber`: the call returns something that is not a finite number, such as `undefined` for an empty stroke, or Infinity for "1/0". The coordinates are then not all finite.
  - `Pixels(px)`: the stroke in pixels.

  A non-string stroke throws at `expr.replace` and never reaches `Page.evaluate`.
- `Math.sqrt` and IEEE-754 arithmetic are not modelled. Numbers are reals and the square root is the `Page.sqrt` parameter; `Curve.WeightIsHalfDistance` ties it to the spans where it is exact.
- Connector.Draw: a stroke `calc` turns into no finite number, or a gravity that is not a number, leaves coordinates that are not all finite: some NaN, some infinite. The model reports that as `DrawnNaN` without coordinates.
- Connector.NumberValue: an array or object is treated as NaN, not converted through its string form.
- SVG construction is reduced to what the geometry sets: a `Frame` (the box) and a `Path` (the two curve ends). Not modelled:
  - `svgDefs` and the marker;
  - the element ids and class attribute;
  - the `viewBox`, `width`, `height` and `style` strings;
  - the colour;
  - the path's `d` string;
  - the stroke-width style;
  - moving the SVG to a new container.
- Timers are recorded only as the period of the running refresh timer. The resize and mutation observers are a single flag. `debounce`, the callbacks and the mutation observer's handler are not modelled.
- Connector.SimpleLine.constructor: an exception escapes `new SimpleLine(…)` and the caller never receives the object. The sources are `setConfig`, `querySelector` on an invalid selector, `observe` on a missing parent, and the first `update()`. The model records the exception in `constructionThrew` and stops construction where the source would, leaving the line inactive.
- Connector.SimpleLine.constructor: it resolves the elements with the corrected `Resolves`, so a `String` object naming an element activates the line. The code as written rejects it; `ResolvesAsWritten` and the finding below model that.
- Connector.SimpleLine.constructor: the order of the checks is modelled (the start before the end), but not the message a rejection logs. Whether the start or the end lacks a parent is one `Page` flag, since either throws the same TypeError.
- Connector.SimpleLine.PositionCheck: a selector can find an element that is not an `HTMLElement`, such as an SVG element. When that happens for the end, the source rejects the line but keeps the element in `this.end`. Its `positionCheck` then reads undefined offsets instead of throwing. The model throws for every line that does not hold both elements.
- `IdCounter`: the static `SimpleLine.idCounter` is an object passed to the constructor instead of a class field.
- `specsCopy` writes into nested objects that the configuration may share with other code. The model works on values and does not capture that aliasing.
- Keys inherited through the prototype are not modelled: `Units` keys such as `toString`, and a configuration's own `hasOwnProperty` property.
- JavaScript enumerates integer-like object keys first. Property lists here keep insertion order for all keys.
- Behaviours of the code that the model keeps:
  - The end anchor moves along its direction, that is outward. The two-element example therefore gives (−6, 25).
  - The default stroke "4px" is not a number, so the margin is 25.
  - `convert(n, u, u)` is NaN when one `u` is zero pixels.
  - `update`, `setConfig`, `remove` and the constructor can throw. These are TypeErrors, or SyntaxError and ReferenceError from `calc`'s `eval`. The model reports each as `threw` (`constructionThrew` for the constructor).

## Findings

| source | as written | input that shows it | evidently intended | confidence | as-written member | corrected member |
|---|---|---|---|---|---|---|
| simpleline.js:117, simpleline.js:132 | `this.start instanceof String` (and `this.end …`) tests the field, which is still unset at that point | `new SimpleLine(new String("#a"), "#b")` with elements `#a` and `#b` on the page: the start is rejected as "not string or dom element" | `start instanceof String`: a `String` object selector is resolved like a string primitive | not executed | Connector.StringObjectRejectedAsWritten | Connector.Resolves |

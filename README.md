# Solar-yield estimator of pv-suitability-adana-v2, in Dafny

The repository is one browser script, `app.js`. It draws a Leaflet map with a
polygon-drawing toolbar and estimates the solar potential of an area. It
computes three figures: annual energy, household equivalents and avoided CO2.
This project models the parts of the script that compute:

- `Geo` (geo.dfy): the drawn polygon as GeoJSON. It also holds
  `getPolygonAreaM2`, where the foreign `turf.area` routine is a
  function-typed parameter (`AreaOracle`). That parameter returns a
  non-negative area, or `None` for the exception it may throw.
- `Yield` (yield.dfy): the pure core of the estimator.
  - `weightedSR` picks the radiation value.
  - `availableAreaM2` picks the area source.
  - `Recalc` is the arithmetic of `recalc`, including its polygon-mode early
    return.
  - `Fmt` is `fmt`'s finiteness guard.
  - `Render` is what `recalc` writes into the result panel.
  - `recalc` reads form fields and the retained polygon. In the model these
    are parameters (`Inputs`, the retained polygon and `turf.area`), and the
    result is a record (`Outcome`, then `Panel`).
- `Drawing` (drawing.dfy): the class `DrawState`. Its field `layers` is the
  `drawnItems` feature group and its field `lastPolygon` is
  `lastPolygonGeoJSON`. They change on the created, edited and clear events,
  and when the toolbar's delete tool removes a layer. Each handler method is
  specified by a function on the state's value (`AfterCreated`,
  `AfterEdited`, ...). `OneRetained` is the "at most one polygon, and the
  retained polygon is the one on the map" rule. `Step` and `Replay` run user
  events. A flag says whether a delete goes through app.js as written (no
  `draw:deleted` handler) or through the corrected handler of "## Findings".
  As written, only the weaker rule `ShownRetained` holds: a polygon may stay
  retained after the map is emptied.
  The created handler, the edited handler when a layer exists (app.js:39) and
  the clear button each end with `recalc`, which is
  `Yield.Show(inputs, lastPolygon, turfArea)`. A toolbar delete runs no
  handler, so nothing recalculates. An edit on an empty map skips `recalc`.

Quantities are `real`. A value that the page shows as '—' is `None`. The
radiation choice follows the code: for any selection other than `"high"` it
takes the plain mean of the two class radiations. It is not area-weighted.
app.js has no polygon union, difference, intersection or containment test,
no suitability-zone loading and no accept/reject check of a drawn polygon
against an allowed zone. Descriptions of the system that speak of an
area-weighted mean or of such geometry do not match app.js. The model follows
app.js and invents none of them.

## Model

| member | source | states |
|---|---|---|
| `Geo.PolygonAreaM2` | app.js:66-73 | There is an area exactly when a polygon is retained and turf.area does not throw. The area is then turf.area's value, which is non-negative. |
| `Yield.WeightedSR` | app.js:75-81 | "high" gives the high radiation unchanged. Any other selection gives the midpoint of the two radiations. Either way the result lies between the smaller and the larger radiation. |
| `Yield.WeightedSRIsHighExactly` | app.js:78-80 | The result equals the high radiation if and only if the selection is "high" or the two radiations are equal. |
| `Yield.KmToM2` | app.js:90-91 | The km² to m² conversion is inverted by the panel's division by 1,000,000, and it keeps the sign. |
| `Yield.AvailableAreaM2` | app.js:83-94 | Polygon mode gives the polygon's area, possibly absent. Preset mode always gives an area: the high km² alone for "high", otherwise high plus moderate km², in m². |
| `Yield.PresetModerateAddsArea` | app.js:89-93 | In preset mode with a non-negative moderate area, the non-high area is at least the high-only area. |
| `Yield.UsedArea` | app.js:105-131 | The used area relates to the available area as the coverage percentage to 100. Properties are in `UsedAreaBounds` and `UsedAreaMonotone`. |
| `Yield.UsedAreaBounds` | app.js:130-131 | For coverage in [0,100] and a non-negative available area, 0 ≤ used ≤ available. Coverage 100 uses all of it; coverage 0 or an empty area uses none. |
| `Yield.UsedAreaMonotone` | app.js:131 | The used area does not decrease as coverage grows. |
| `Yield.Energy` | app.js:133-134 | Radiation × used area × efficiency × PR is zero when one factor is zero. The converse and the sign are in `EnergySign`; growth with used area is in `EnergyMonotone`. |
| `Yield.EnergySign` | app.js:133-134 | Energy is zero if and only if one of radiation, used area, efficiency or performance ratio is zero. It is non-negative when all four are. |
| `Yield.EnergyMonotone` | app.js:134 | With non-negative radiation, efficiency and performance ratio, energy does not decrease as the used area grows. |
| `Yield.Homes` | app.js:136 | A household figure exists if and only if consumption is positive. That many households consume exactly the energy. |
| `Yield.Co2` | app.js:137 | Avoided CO2 divided by a non-zero emission factor gives back the energy. It is zero when the energy or the factor is zero, and non-negative for non-negative operands. |
| `Yield.Recalc` | app.js:114-137 | Early return (radiation only) if and only if polygon mode has no polygon, turf.area throws, or the area is 0. Otherwise the estimate uses the available area (positive in polygon mode) and chains UsedArea, Energy, Homes and Co2. |
| `Yield.PresetIgnoresPolygon` | app.js:114-131 | In preset mode there is always an estimate, and it does not depend on the drawn polygon. |
| `Yield.EnergyMonotoneInCoverage` | app.js:128-134 | With non-negative radiations, efficiency, PR and preset areas, raising the coverage keeps the estimate and never lowers the energy. |
| `Yield.Co2PerHousehold` | app.js:136-137 | For positive consumption, CO2 = households × consumption × emission factor. |
| `Yield.ReferenceScenario` | app.js:128-137 | 1 km² high preset at 1800 kWh/m²/yr, 40 % coverage, efficiency 0.131, PR 0.75 gives 400,000 m², 70,740,000 kWh/yr, 29,475 households (2400 kWh each) and 31,833,000 kg CO2 (0.45 kg/kWh). |
| `Yield.Fmt` | app.js:60-63 | '—' if and only if the value is not a number; otherwise the value itself with the requested fraction digits. |
| `Yield.Render` | app.js:116-150 | Energy, CO2, used area and note show '—' / the drawing hint if and only if there was an early return. Homes show '—' if and only if early return or no household figure. Shown km² times 1,000,000 give back the m². The note names polygon or preset by mode. Energy, homes and CO2 are shown with 0 fraction digits, km² with 2. |
| `Yield.Show` | app.js:96-151 | The whole of `recalc`. Energy is '—' exactly when polygon mode has no polygon, turf.area throws or the area is 0. Otherwise it is the computed energy. The radiation is always shown, and the pill says drawn exactly when a polygon is retained. |
| `Yield.NoPolygonShowsDashes` | app.js:116-125 | Polygon mode without a retained polygon shows '—' for energy, homes and CO2, asks for a polygon, and shows the polygon as not drawn. |
| `Yield.HomesShownIffConsumptionPositive` | app.js:136-147 | Households are shown as a number if and only if there is an estimate and consumption is positive. |
| `Drawing.AfterCreated` | app.js:28-32 | After a draw, the rule holds and the new polygon is the one retained. |
| `Drawing.CreateForgetsPrevious` | app.js:29-32 | The state after a draw does not depend on the state before it: any previous polygon is discarded. |
| `Drawing.AfterEdited` | app.js:37-44 | The layers become the edited ones. The first edited layer is retained if one exists; otherwise the retained polygon is unchanged. The rule is preserved. |
| `Drawing.AfterCleared` | app.js:156-158 | The map is emptied and nothing is retained, always. |
| `Drawing.AfterDeleteAsWritten` | app.js:20-23 | The delete tool changes the layers but leaves the retained polygon. Deleting a retained polygon breaks the rule. |
| `Drawing.AfterDeleted` | app.js:37-44 | The corrected delete: nothing is retained once the map is empty. The rule is preserved. |
| `Drawing.Step` | app.js:28-44 | One event. A draw leaves exactly the new polygon on the map and retained, and a clear returns to the initial state. As written, every event keeps the weaker rule. With the `draw:deleted` handler, every event keeps the full rule. |
| `Drawing.Replay` | app.js:26-44 | As written, every sequence of draw, edit, delete and clear events keeps the weaker rule (at most one polygon; a polygon on the map is the retained one). With the `draw:deleted` handler, every sequence keeps the full rule. |
| `Drawing.NothingRetainedBeforeDrawing` | app.js:26-44 | With or without the `draw:deleted` handler, events without a draw leave the page in its initial state, so polygon mode keeps returning early. |
| `Drawing.EstimateNeedsPolygonOnMap` | app.js:114-126 | With the `draw:deleted` handler: after any sequence of events from page load, polygon mode gives an estimate only when exactly one polygon is on the map. The estimate's area is that polygon's turf.area. |
| `Drawing.EstimateWithEmptyMapAsWritten` | app.js:20-44 | As written, draw then toolbar-delete leaves an empty map, and polygon mode still gives an estimate. |
| `Drawing.DeleteAsWrittenBreaksRule` | app.js:20-32 | Draw then toolbar-delete breaks the rule as written, and keeps it with the draw:deleted handler. |
| `Drawing.DrawState.constructor` | app.js:26 | Nothing is drawn or retained at load, and the invariant holds. |
| `Drawing.DrawState.Created` | app.js:28-35 | The new state is `AfterCreated` of the old one, and the invariant holds. |
| `Drawing.DrawState.Edited` | app.js:37-44 | The new state is `AfterEdited` of the old one, and the invariant is preserved. |
| `Drawing.DrawState.Cleared` | app.js:156-161 | The new state is `AfterCleared` of the old one, and the invariant holds. |
| `Drawing.DrawState.DeleteAsWritten` | app.js:20-23 | The new state is `AfterDeleteAsWritten` of the old one. Emptying the map with a retained polygon breaks the invariant. |
| `Drawing.DrawState.Deleted` | app.js:37-44 | The new state is `AfterDeleted` of the old one, and the invariant is preserved. |
| `Drawing.StaleAreaAfterDelete` | app.js:66-69 | Draw, delete with the toolbar, recalc in polygon mode: the map is empty, yet the estimate uses the deleted polygon's area. |
| `Drawing.NoAreaAfterDelete` | app.js:116-125 | With the corrected delete, the same steps end in the early return. |

## Left out

- Leaflet map, tile layer and draw-control setup (app.js:1-24): UI and a third-party library. Only the delete tool's effect on the layers is modelled.
- DOM plumbing: `el`, `textContent`, `classList`, the coverage label, and the pill text of `updatePolygonStatus`. The model keeps only the pill's drawn / not-drawn flag (`Panel.polygonDrawn`).
- `turf.area`'s spherical-area computation: foreign code. It is the parameter `AreaOracle`.
- `toLocaleString` formatting (app.js:62): locale-dependent text. `Shown.Number` keeps the value and the digit count.
- Event listener registration and the initial run (app.js:153-170): event wiring. Where a handler ends with `recalc()`, that call is `Yield.Show` applied to the new state.
- IEEE floating point: `parseFloat` returning NaN or Infinity, NaN propagation, rounding and overflow. Inputs are finite reals, so the falsy-NaN part of the guard `!availM2` and the `availM2 || 0` fallback have no separate case. "No value" is `None`.
- `Drawing.Step`: an edit event gives the drawn layer one new shape. With at most one layer on the map, that is all the edit tool can do.
- Polygon union, difference, intersection, containment, area-weighted intensity, zone loading and accept/reject of drawn polygons: none of these exists in app.js.

## Findings

| source | as written | input that shows it | evidently intended | confidence | as-written member | corrected member |
|---|---|---|---|---|---|---|
| app.js:20-44 | The toolbar's edit section is given `drawnItems`, which also enables Leaflet.draw's delete tool. No `draw:deleted` handler clears `lastPolygonGeoJSON`. | Draw a polygon whose turf.area is positive, delete it with the toolbar, then recalc in polygon mode. The map is empty but the energy is computed from the deleted polygon's area. | Deleting the polygon should reset the retained polygon, as the clear button does, so that the page asks for a polygon again. | medium (depends on Leaflet.draw's default delete tool; not executed) | `Drawing.AfterDeleteAsWritten`, `Drawing.DeleteAsWrittenBreaksRule`, `Drawing.EstimateWithEmptyMapAsWritten`, `Drawing.StaleAreaAfterDelete` | `Drawing.AfterDeleted`, `Drawing.Replay`, `Drawing.EstimateNeedsPolygonOnMap`, `Drawing.NoAreaAfterDelete` |

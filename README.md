# Choropleth map of municipal tax rates — a Dafny model

This project models the map component of the tax-rate front end
(`frontend/src/components/Home/Map/index.jsx`). The component draws the
municipalities and cantons of Switzerland as two layers of paths. It colours
each municipality by its tax rate, and each canton by the mean rate of its
municipalities, using a ten-colour palette. It shows a tooltip on hover and
neutralises a clicked canton. A legend shows a gradient of the palette and
seven axis ticks spanning the rates.

The project has five modules.

- `Basics`: an `Option` type, JavaScript's `parseInt` on a number (`Trunc`),
  extrema and sums of sequences.
- `Binner`: the colour binner. Rates are scaled by 10000 and truncated. The
  interval is `Math.round(range / 10)`. A cascade of strict comparisons
  against `highest - interval * k`, for k = 1..9, picks the palette entry.
  The lowest-to-highest extremes come from a scan, which is proved to agree
  with the ends of an ascending sort.
- `Legend`: the legend placement rule, the gradient stops and the tick
  values.
- `Regions`: the rate records, the render state of each path, the static
  canton lookup, canton averaging, and each colouring pass. Every pass is
  written as a function of the layer before the pass.
- `MapView`: the component as a class `ChoroplethMap`. Its fields are updated
  in place by the effect, the drawing steps and the event handlers. Each
  method's contract ties the new state to the `Regions` and `Legend`
  functions.

The class invariant `Valid` captures one point of the design. Canton handlers
are registered only after every canton path received its average. From then
on, every canton id has a lookup key whose canton has records among the
captured rates. So the hover handler's `muns[0]` always exists.

A JavaScript exception ends the handler or the effect that raised it. In the
model it becomes an `ok: bool` result, and the state is left exactly as far as
the code got. There are three such exceptions:

- `reduce` on a canton without records;
- reading `averageRate` of a lookup id that has no path;
- rescaling the projection before the boundary data has loaded.

As in the code, the axis update is skipped when the map update threw.

When the interval rounds to 0 (a range of scaled rates below 5, including a
population of one value), none of the nine strict comparisons holds. So every
shape, the highest included, gets `colors.one`, not the top colour (lemmas
`Binner.DegenerateRangeGivesLowest`, `Binner.SingleValueGivesLowest`).

The palette is `colors` read in declaration order, `one` to `ten`: entry i is
both `colors.<i+1>` in the cascade and `Object.values(colors)[i]` in the
legend gradient.

## Model

| member | source | states |
|---|---|---|
| Basics.Trunc | frontend/src/components/Home/Map/index.jsx:176 | `parseInt` of a number is its integer part, truncated toward zero: within one of the number, never past it |
| Basics.Min | frontend/src/components/Home/Map/index.jsx:177 | the lowest scaled rate is one of the rates and at most every rate |
| Basics.Max | frontend/src/components/Home/Map/index.jsx:178 | the highest scaled rate is one of the rates and at least every rate |
| Basics.MinReal | frontend/src/components/Home/Map/index.jsx:319 | `d3.min` of non-empty rates is one of them and at most every one |
| Basics.MaxReal | frontend/src/components/Home/Map/index.jsx:320 | `d3.max` of non-empty rates is one of them and at least every one |
| Binner.Scale | frontend/src/components/Home/Map/index.jsx:176 | a non-negative rate scales to the non-negative integer part of rate × 10000 |
| Binner.ScaleMonotone | frontend/src/components/Home/Map/index.jsx:184 | a higher rate never scales to a lower integer |
| Binner.Interval | frontend/src/components/Home/Map/index.jsx:179-180 | `Math.round(range / 10)` equals (range + 5) div 10; it is non-negative for a non-negative range and 0 exactly when -5 <= range < 5 |
| Binner.Cascade | frontend/src/components/Home/Map/index.jsx:188-209 | the switch cascade from case k on picks a bucket of at most 10 - k |
| Binner.CascadeFirstMatch | frontend/src/components/Home/Map/index.jsx:188-209 | the cascade picks by first match: a bucket b > 0 only when the value is strictly above threshold 10 - b, and the value is at or below every threshold tested before |
| Binner.Bucket | frontend/src/components/Home/Map/index.jsx:188-209 | every value lands in one of the ten palette entries |
| Binner.BucketFirstMatch | frontend/src/components/Home/Map/index.jsx:188-209 | the whole cascade's bucket b is the first k with value > highest - interval × k (b = 10 - k), or `colors.one` when none of the nine holds |
| Binner.BucketMonotone | frontend/src/components/Home/Map/index.jsx:188-209 | a higher scaled rate never gets a lower colour, for any population |
| Binner.OnThresholdFallsBelow | frontend/src/components/Home/Map/index.jsx:189-206 | a value exactly on threshold k falls into the bucket below 10 - k, because the comparisons are strict |
| Binner.DegenerateRangeGivesLowest | frontend/src/components/Home/Map/index.jsx:179-209 | with a range below 5 the interval is 0 and every value up to the highest gets `colors.one` |
| Binner.SingleValueGivesLowest | frontend/src/components/Home/Map/index.jsx:176-209 | a population of one value colours it `colors.one` |
| Binner.HighestGetsTop | frontend/src/components/Home/Map/index.jsx:179-190 | with a range of at least 5, the highest value gets `colors.ten` |
| Binner.Extremes | frontend/src/components/Home/Map/index.jsx:176-178 | the scan returns values of the population that bound every value, i.e. its minimum and maximum |
| Binner.SortedEnds | frontend/src/components/Home/Map/index.jsx:177-178 | the first and last entries of any ascending permutation are the population's minimum and maximum |
| Binner.PermutedExtremes | frontend/src/components/Home/Map/index.jsx:252-254 | permuting the population changes neither extreme |
| Legend.LegendMarginLeft | frontend/src/components/Home/Map/index.jsx:39 | the legend is pushed off-screen (left margin -10000) exactly when the height is at most 450; otherwise it sits within the width |
| Legend.GradientStops | frontend/src/components/Home/Map/index.jsx:304-309 | one stop per palette colour, in palette order, at i × (100 / n) percent: the first at 0, strictly increasing, all below 100 |
| Legend.TickValues | frontend/src/components/Home/Map/index.jsx:318-330 | ticks are defined exactly when there are rates; then seven of them, from the minimum to the maximum rate, in six equal steps, all within the range |
| Regions.TableIds | frontend/src/components/Home/Map/index.jsx:259 | the lookup's ids, one per entry, in table order |
| Regions.LookupUnique | frontend/src/components/Home/Map/index.jsx:217 | in a table whose ids are in ascending key order, as an object's integer-like keys are, the lookup of an id gives the key of its one entry |
| Regions.Lookup | frontend/src/components/Home/Map/index.jsx:217 | a shape id has a canton key exactly when it is an id of the lookup, and the key is that entry's |
| Regions.FirstRecordFor | frontend/src/components/Home/Map/index.jsx:150-151 | no record is found exactly when no record carries the municipality id; otherwise the found record is the earliest with that id |
| Regions.LastRecordIndex | frontend/src/components/Home/Map/index.jsx:183-186 | the index of the record whose style write survives: it carries the id and no later record does |
| Regions.Scaled | frontend/src/components/Home/Map/index.jsx:176 | the population holds each record's scaled rate, in record order |
| Regions.RecolouredMunicipalities | frontend/src/components/Home/Map/index.jsx:174-211 | recolouring keeps the set of drawn municipalities |
| Regions.RecolouredMunicipalitiesSpec | frontend/src/components/Home/Map/index.jsx:174-211 | recolouring keeps every `active` class, leaves a shape without records as it was, and fills a shape with records with the colour of its last record's scaled rate among all scaled rates |
| Regions.PaintMunicipalitiesNothing | frontend/src/components/Home/Map/index.jsx:183 | the colouring loop over no records changes nothing |
| Regions.PaintMunicipalitiesStep | frontend/src/components/Home/Map/index.jsx:183-211 | one more record restyles only its own path, and only when that path is drawn |
| Regions.LastRecordIsUnique | frontend/src/components/Home/Map/index.jsx:183-186 | with unique municipality ids, the surviving record is the only one |
| Regions.ScaledExtremesCovered | frontend/src/components/Home/Map/index.jsx:176-178 | the extremes of a sub-collection of records lie within those of the whole |
| Regions.SameLastRecord | frontend/src/components/Home/Map/index.jsx:183-186 | two record sequences with the same unique records give each municipality the same surviving record |
| Regions.PaintSameRecords | frontend/src/components/Home/Map/index.jsx:183-211 | sequences that agree on each drawn municipality's surviving record paint the layer alike |
| Regions.RecolourMunicipalitiesPermutation | frontend/src/components/Home/Map/index.jsx:174-211 | the order of the rate records does not matter: any permutation of uniquely keyed records gives the same colours |
| Regions.Members | frontend/src/components/Home/Map/index.jsx:218 | the filter returns no more records than it was given, each carrying the canton's key |
| Regions.MembersSpec | frontend/src/components/Home/Map/index.jsx:218 | a record is a member of a canton exactly when it is among the rates and carries the canton's key, and it is kept exactly as often as it occurs among the rates |
| Regions.MembersConcat | frontend/src/components/Home/Map/index.jsx:218 | the filter keeps source order: filtering a concatenation concatenates the filtered parts |
| Regions.MembersSingle | frontend/src/components/Home/Map/index.jsx:218 | a single record is kept exactly when it carries the canton's key |
| Regions.MembersFirst | frontend/src/components/Home/Map/index.jsx:218-231 | the first member, which the tooltip reads as `muns[0]`, is the earliest record carrying the key |
| Regions.MembersPermutation | frontend/src/components/Home/Map/index.jsx:218 | permuting the rate records permutes every canton's members |
| Regions.RateSumPermutation | frontend/src/components/Home/Map/index.jsx:219 | permuting the members changes neither their count nor the total of their rates |
| Regions.CantonRatePermutation | frontend/src/components/Home/Map/index.jsx:216-220 | a canton's average does not depend on the order of the rate records |
| Regions.FirstUnaveragedSame | frontend/src/components/Home/Map/index.jsx:215-221 | the averaging pass stops at the same canton for two record sequences that give every canton the same average |
| Regions.AveragePassPermutation | frontend/src/components/Home/Map/index.jsx:215-221 | permuting the rate records changes neither where the averaging pass stops nor any average it sets |
| Regions.RecolourCantonsPermutation | frontend/src/components/Home/Map/index.jsx:249-288 | permuting the rate records changes no canton colour after the averaging pass |
| Regions.Rates | frontend/src/components/Home/Map/index.jsx:219 | the members' rates, one per member, in order |
| Regions.Average | frontend/src/components/Home/Map/index.jsx:219 | the mean is undefined (the reduce throws) exactly when there are no rates |
| Regions.AverageWithin | frontend/src/components/Home/Map/index.jsx:219 | the mean of some rates lies between their minimum and maximum |
| Regions.CantonRateDefined | frontend/src/components/Home/Map/index.jsx:216-220 | a canton path gets an average exactly when its id has a lookup key and some record carries that key |
| Regions.CantonRateWithin | frontend/src/components/Home/Map/index.jsx:216-220 | a canton's average lies within any bounds of its members' rates |
| Regions.FirstUnaveraged | frontend/src/components/Home/Map/index.jsx:215-221 | the averaging pass gets through every path before the returned position, and the path at that position (if any) has no average |
| Regions.Averaged | frontend/src/components/Home/Map/index.jsx:216-221 | setting averages keeps the paths, their styles and classes; each listed path holds its canton's mean, the others are untouched |
| Regions.AveragedNothing | frontend/src/components/Home/Map/index.jsx:215-216 | averaging no paths changes nothing |
| Regions.AveragedStep | frontend/src/components/Home/Map/index.jsx:216-221 | averaging one more path sets only that path's attribute |
| Regions.AveragePass | frontend/src/components/Home/Map/index.jsx:215-221 | the averaging pass keeps the set of canton paths |
| Regions.AveragePassSpec | frontend/src/components/Home/Map/index.jsx:215-221 | the pass changes no style or class; the paths before the first failure, in document order, hold their canton's mean; every other path is left as it was |
| Regions.AveragePassSetsAverages | frontend/src/components/Home/Map/index.jsx:215-222 | the pass never unsets an average; when it runs through, every listed path has a key with records and holds an average |
| Regions.CantonPopulation | frontend/src/components/Home/Map/index.jsx:252 | the canton population is every path's scaled average in document order, an unset attribute counting as 0 |
| Regions.PaintCantons | frontend/src/components/Home/Map/index.jsx:259-287 | painting keeps the paths, their averages and classes, and leaves the unlisted paths untouched |
| Regions.PaintCantonsNothing | frontend/src/components/Home/Map/index.jsx:259 | painting no ids changes nothing |
| Regions.PaintCantonsEmpty | frontend/src/components/Home/Map/index.jsx:259-287 | painting a layer with no paths leaves it empty |
| Regions.PaintCantonsStep | frontend/src/components/Home/Map/index.jsx:259-287 | painting one more id restyles only that path, with the colour of its own scaled average |
| Regions.FirstMissing | frontend/src/components/Home/Map/index.jsx:259-262 | every lookup id before the returned position has a path, and the one at that position (if any) has none, where reading its attribute throws |
| Regions.RecolouredCantons | frontend/src/components/Home/Map/index.jsx:249-288 | recolouring the cantons keeps the set of paths, every average and every class |
| Regions.RecolourFillsEveryCanton | frontend/src/components/Home/Map/index.jsx:249-288 | when every lookup id is drawn and every path is in the lookup, each canton is filled with the colour of its own scaled average among all cantons' |
| Regions.RecolourIdempotent | frontend/src/components/Home/Map/index.jsx:62-65 | recolouring twice is recolouring once, so a background click after a background click changes nothing |
| Regions.PaintKeepsPopulation | frontend/src/components/Home/Map/index.jsx:252-262 | painting changes no scaled average, so the population is the same afterwards |
| Regions.PaintCantonsIdempotent | frontend/src/components/Home/Map/index.jsx:259-287 | painting the same ids with the same extremes twice is painting them once |
| Regions.FirstMissingSameKeys | frontend/src/components/Home/Map/index.jsx:259-260 | where painting stops depends only on which paths exist |
| Regions.ClickLeavesOneNeutral | frontend/src/components/Home/Map/index.jsx:239-244 | after a canton click that recoloured every canton, the clicked canton is the one and only neutral canton |
| MapView.ChoroplethMap.constructor | frontend/src/components/Home/Map/index.jsx:11-45 | before the first effect, nothing is drawn, no handler is registered, no ticks exist, and the legend margin follows the window size; the lookup is in key order for the component's whole life |
| MapView.ChoroplethMap.Effect | frontend/src/components/Home/Map/index.jsx:18-30 | the first run sets up an empty drawing surface; every later run recolours both layers and, only when the canton update did not throw, recomputes the ticks, leaving the tooltip, gradient, svg size and projection as they were; the viewport size, legend margin and axis position are outside its frame, so they never change; it keeps the invariant |
| MapView.ChoroplethMap.Rerender | frontend/src/components/Home/Map/index.jsx:27-29 | the municipality and canton layers are updated in that order; the axis ticks change only when the map update did not throw |
| MapView.ChoroplethMap.SetupSvg | frontend/src/components/Home/Map/index.jsx:47-76 | the previous drawing is removed: empty layers without handlers, a hidden tooltip, an svg of the map size, no gradient and no ticks |
| MapView.ChoroplethMap.TopologyLoaded | frontend/src/components/Home/Map/index.jsx:113-139 | one unstyled, inactive path per feature of each layer, cantons in document order, no handlers, and the projection exists |
| MapView.ChoroplethMap.UpdateMunicipalities | frontend/src/components/Home/Map/index.jsx:147-172 | the municipality handlers capture the new records and the layer is recoloured from them |
| MapView.ChoroplethMap.ColorizeMunicipalities | frontend/src/components/Home/Map/index.jsx:174-211 | the layer becomes its recoloured version, with the extremes of all scaled rates |
| MapView.ChoroplethMap.PaintRecords | frontend/src/components/Home/Map/index.jsx:183-211 | the loop over the records leaves each drawn municipality styled by its last record and every other path untouched |
| MapView.ChoroplethMap.UpdateCantons | frontend/src/components/Home/Map/index.jsx:214-247 | averages are set in document order up to the first canton without records, where it throws and registers no handlers; otherwise the handlers capture the records and the layer is recoloured |
| MapView.ChoroplethMap.AverageCantons | frontend/src/components/Home/Map/index.jsx:215-221 | the layer becomes its averaging pass, and it succeeds exactly when no canton lacks records |
| MapView.ChoroplethMap.ColorizeCantons | frontend/src/components/Home/Map/index.jsx:249-288 | the layer becomes its recoloured version, and it succeeds exactly when every lookup id has a path |
| MapView.ChoroplethMap.PaintKeys | frontend/src/components/Home/Map/index.jsx:259-287 | the lookup ids are painted in order up to the first one without a path, and it reports whether it got through |
| MapView.ChoroplethMap.HoverMunicipality | frontend/src/components/Home/Map/index.jsx:149-159 | with handlers and a record for the municipality, only its path becomes active and the tooltip shows its first record's name and rate next to the pointer; otherwise nothing changes |
| MapView.ChoroplethMap.MouseOutMunicipality | frontend/src/components/Home/Map/index.jsx:160-165 | with handlers, only the path loses its `active` class and the tooltip is hidden |
| MapView.ChoroplethMap.HoverCanton | frontend/src/components/Home/Map/index.jsx:222-232 | with handlers, the canton has records, only its path becomes active, and the tooltip shows its first record's canton name and its average next to the pointer |
| MapView.ChoroplethMap.MouseOutCanton | frontend/src/components/Home/Map/index.jsx:233-238 | with handlers, only the path loses its `active` class and the tooltip is hidden |
| MapView.ChoroplethMap.ClickCanton | frontend/src/components/Home/Map/index.jsx:239-244 | with handlers, the cantons are recoloured, and when that did not throw the clicked canton is set to the neutral style |
| MapView.ChoroplethMap.Neutralise | frontend/src/components/Home/Map/index.jsx:242-243 | only the clicked canton's style changes, to the neutral style |
| MapView.ChoroplethMap.ClickBackground | frontend/src/components/Home/Map/index.jsx:62-65 | the cantons are recoloured, which succeeds exactly when every lookup id has a path |
| MapView.ChoroplethMap.Resize | frontend/src/components/Home/Map/index.jsx:90-108 | the size and the legend margin always follow the container; the svg size and the axis position follow only when the projection exists, otherwise it throws |
| MapView.ChoroplethMap.FetchSettled | frontend/src/components/Home/Map/index.jsx:22 | the axis is drawn exactly when the fetch succeeded |
| MapView.ChoroplethMap.DrawAxis | frontend/src/components/Home/Map/index.jsx:290-315 | the axis group is placed at the legend margin above the bottom margin, and the gradient holds the palette's stops |
| MapView.ChoroplethMap.UpdateAxis | frontend/src/components/Home/Map/index.jsx:317-351 | the ticks become the tick values of the records' rates |

## Left out

- Geometry: the Mercator projection, `geoPath`, `geoCentroid`, the projection's scale factor and the `d` attribute of paths. Only "the projection exists" is kept.
- Zoom and pan (`d3.zoom` transforms): they change no colour, style or state the model tracks.
- I/O: loading the boundary file and fetching the rates. They become the events `TopologyLoaded` and `FetchSettled`. The topology is reduced to the feature ids of each layer.
- The palette and the canton lookup table: they are imported from `./constants`, which is not part of this model. Both are constant parameters of the class. The palette is assumed to declare `one` to `ten` in that order. The lookup is assumed to list each canton id once, in ascending order, as `Object.keys` of an object literal gives them; the constructor requires this (`Regions.KeyOrder`).
- Number formatting: the tooltip's `toFixed(2)` of rate × 100 and the axis' `.2%` format. The tooltip carries the unformatted rate.
- Floating point: rates are exact reals. `parseInt(x * 10000)` is the truncated real product. Not modelled: IEEE rounding of that product, of `reduce`'s left-to-right sum and of the division by the member count, and `parseInt`'s exponent-notation strings for tiny numbers. The bounds in `Regions.AverageWithin` and `Regions.CantonRateWithin` are exact-arithmetic results; a rounded mean can lie just outside them (three rates of 0.1 average to 0.10000000000000002 in IEEE doubles).
- Regions.CantonRatePermutation: canton-level order independence, and with it `Regions.AveragePassPermutation` and `Regions.RecolourCantonsPermutation`, holds for exact sums only. The program's rounded left-to-right sum depends on record order and can change a canton's scaled value: rates 0.1, 0.2, 0.3 average to 0.20000000000000004 (scaled 2000) in that order, but to 0.19999999999999998 (scaled 1999) in reverse order. `Regions.RecolourMunicipalitiesPermutation` is not affected, since each municipality uses its own record's scaled rate and integer extremes.
- Styling: theme colours, the background and axis rectangles, and the d3 axis scale. Only the tick values and the gradient stops are modelled.
- The municipality click handler: it only prevents the default action, so it changes nothing the model tracks.
- How React reacts to an effect that throws: the model reports it as `ok == false` and keeps the state reached when it threw.
- Binner.Extremes: the in-place sort of the scaled rates is replaced by one scan. `Binner.SortedEnds` proves that the ends of the sort are the same values. The reordering of the local array is not observable.
- Pointer coordinates `pageX`/`pageY` are integers.
- The canton-path population is read through the `.canton-boundaries` class, and path ids are assumed unique within each layer. Both layers are maps from id to path state.
- MapView.ChoroplethMap.ClickCanton: the "only neutral canton afterwards" property is not in the method's contract. It is proved as `Regions.ClickLeavesOneNeutral`, under that lemma's conditions.

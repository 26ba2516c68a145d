# Coffee region taste-profile map, modelled in Dafny

This project models the logic of an interactive world map of coffee
producers:

- **classifying** a country's UN region label into a coffee macro-region
  (Latin America, Africa or Asia) by ordered, case-sensitive substring tests;
- **joining** the world-geometry features with the coffee-producer list into
  one map-country record per feature;
- **recolouring** the country list when the cursor enters or leaves a
  country, and showing or hiding the tooltip panel;
- **cleaning the cells** of the table the producer list was scraped from.

It covers both copies of the map: the current one (a hook and a component)
and the older single-file one.

Modules:

- `Wrappers`: the `Option` type. It stands for the source's nullable values.
- `Text`: the runtime string operations the source calls:
  - `includes`, as `Includes`;
  - `str.find`, as `IndexOf`;
  - `str.strip`, as `Strip`;
  - `str.replace(c, '')`, as `RemoveChar`.

  `Contains(s, t)` defines substring containment.
- `Regions`: the region enum `{America, Africa, Asia, Other}`, `Classify`, and
  the colour and display-name tables.
- `CoffeeData`: the hook `src/hooks/useCoffeeData.tsx`. It holds the four
  getters, the exception-name table, the producer dictionary, the
  region-match predicate and `ConstructCountries`.
- `WorldMap`: the component `src/components/WorldMap/WorldMap.tsx`.
  - The pure functions `HoverCountries` and `LeaveCountries` describe the
    recolouring.
  - The class `WorldMapView` holds the country list and the tooltip state.
    Its handlers are stated against those two functions.
- `LegacyWorldMap`: the older `coffee-map/src/components/WorldMap/WorldMap.tsx`.
  - Its records have no coffee-region name.
  - Its taste summaries are different strings.
  - A path has a `<title>` child exactly when the country has a taste
    profile.
  - It reuses the hook's producer dictionary, because that code is
    identical.
- `Scrape`: the row and cell loop of `scripts/scrape.py`.
  - `ScrapeRows` and `NormaliseRow` are the two nested loops.
  - They are proved against the function `Scraped`.

Inputs that the source reads from bundled files or from libraries are
parameters here:

- the producer list;
- the geometry features;
- the path generator `pathOf: Feature -> Option<string>`;
- the window size;
- the cursor coordinates.

## Notes on the source

- A non-coffee country still carries the region name and taste profile of
  its UN region. `constructContries` derives both from `REGION_UN`
  unconditionally (`src/hooks/useCoffeeData.tsx:70,77`), so a non-coffee
  African country carries the Africa profile. See `Describes` and
  `TasteIndependentOfProducers`.
- `src/components/WorldMap/WorldMap.tsx:94` calls `constructContries(mapSize)`.
  The hook's `constructContries` (`src/hooks/useCoffeeData.tsx:41,52`) expects
  a path generator and calls it.
  - As written, that call would apply an array as a function.
  - The model keeps the path source abstract as `pathOf`, so this mismatch
    is not reproduced.
- The producer dictionary is last-write-wins on duplicate resolved names.
  The model proves this (`DictLast`); it is not treated as a defect.

## Model

Two members that model source code carry no contract of their own and are
specified through others. `CoffeeData.ResolvedName`
(`src/hooks/useCoffeeData.tsx:46`) is specified by `ResolvedNameTable`. The
two `BuildCountry` functions, the `features.map` callbacks, are specified by
their modules' `ConstructCountries`.

| member | source | states |
|---|---|---|
| Text.IndexOf | scripts/scrape.py:24 | `-1` exactly when the pattern does not occur; otherwise the pattern occurs at the result and at no earlier position |
| Text.Includes | src/hooks/useCoffeeData.tsx:86 | `includes` is true exactly when the pattern is a substring (`Contains`) |
| Text.Strip | scripts/scrape.py:21 | the result is the slice between the leading and trailing whitespace runs; it neither starts nor ends with whitespace; it is empty exactly when the input is all whitespace |
| Text.RemoveChar | scripts/scrape.py:21 | the result has no occurrence of the character and is no longer than the input; an input without the character is unchanged |
| Text.RemoveCharMembers | scripts/scrape.py:21 | a character is in the result exactly when it is in the input and is not the deleted one |
| Text.RemoveCharAppend | scripts/scrape.py:21 | deleting a character distributes over concatenation, so the order of the kept characters is preserved |
| Regions.Classify | src/hooks/useCoffeeData.tsx:85-133 | America exactly when the label contains "America"; Africa when it contains "Africa" but not "America"; Asia when it contains "Asia" and neither earlier word; Other otherwise |
| Regions.BaseColor | src/hooks/useCoffeeData.tsx:96-105 | the base colour is the neutral `#ddd` exactly for Other |
| Regions.HoverColor | src/hooks/useCoffeeData.tsx:107-116 | the hover colour is `#ddd` exactly for Other, and differs from the base colour for every coffee region |
| Regions.DisplayName | src/hooks/useCoffeeData.tsx:85-94 | there is no display name exactly for Other |
| CoffeeData.ResolvedNameTable | src/hooks/useCoffeeData.tsx:36-46 | "Tanzania" resolves to "United Republic of Tanzania", "Timor Leste" to "East Timor", and every other name to itself |
| CoffeeData.DistributorDict | src/hooks/useCoffeeData.tsx:42-48 | the last producer's resolved name is a key |
| CoffeeData.DictKeys | src/hooks/useCoffeeData.tsx:42-48 | a name is a key of the producer dictionary exactly when some producer's resolved name equals it |
| CoffeeData.DictLast | src/hooks/useCoffeeData.tsx:42-48 | the value under a key is the last producer resolving to it (last write wins) |
| CoffeeData.GetCoffeeRegionName | src/hooks/useCoffeeData.tsx:85-94 | equals the display-name table at `Classify(region)` |
| CoffeeData.GetRegionColor | src/hooks/useCoffeeData.tsx:96-105 | equals the base-colour table at `Classify(region)` |
| CoffeeData.GetRegionHoverColor | src/hooks/useCoffeeData.tsx:107-116 | equals the hover-colour table at `Classify(region)` |
| CoffeeData.Taste | src/hooks/useCoffeeData.tsx:118-133 | there is no taste profile exactly for Other |
| CoffeeData.GetRegionTasteProfile | src/hooks/useCoffeeData.tsx:118-133 | equals the taste table at `Classify(region)` |
| CoffeeData.AmericaFirst | src/hooks/useCoffeeData.tsx:85-133 | a label containing "America" gets `#af855f`, `#e2b58d`, "Latin America" and "Chocolate, Nutty, Caramel", whatever else it contains |
| CoffeeData.NoRegionDefaults | src/hooks/useCoffeeData.tsx:93-132 | a label containing none of the three words gets `#ddd` as both colours, no name and no taste profile |
| CoffeeData.GettersAgree | src/hooks/useCoffeeData.tsx:85-133 | no region name, no taste profile, equal base and hover colours, and a base colour of `#ddd` all go together |
| CoffeeData.IsMatchCoffeeRegion | src/hooks/useCoffeeData.tsx:135-139 | false when either side is not a coffee country; otherwise true exactly when the UN regions are equal |
| CoffeeData.MatchSymmetric | src/hooks/useCoffeeData.tsx:135-139 | the region match is symmetric |
| CoffeeData.ConstructCountries | src/hooks/useCoffeeData.tsx:41-83 | one record per feature, in feature order; each record: names copied verbatim; coffee country exactly when some producer resolves to `ADMIN`; name and taste profile from `REGION_UN`; path `pathOf(feature)` or `""`; stroke equals fill, the region's base colour for a coffee country and `#ddd` otherwise |
| CoffeeData.ExceptionNamesJoin | src/hooks/useCoffeeData.tsx:36-62 | a producer whose name the exception table maps to a feature's `ADMIN` makes that feature a coffee country |
| CoffeeData.TasteIndependentOfProducers | src/hooks/useCoffeeData.tsx:69-79 | a record's taste profile and region name come from its UN region alone, whether or not it is a coffee country |
| WorldMap.Recolor | src/components/WorldMap/WorldMap.tsx:40-54 | same length; only stroke and fill can change, and the path stays; matching entries get the given colour; all other entries are unchanged |
| WorldMap.HoverCountries | src/components/WorldMap/WorldMap.tsx:40-54 | entries matching the hovered country get its region's hover colour as stroke and fill; every other entry and every other field is unchanged |
| WorldMap.LeaveCountries | src/components/WorldMap/WorldMap.tsx:62-76 | entries matching the country get its region's base colour as stroke and fill; every other entry and every other field is unchanged |
| WorldMap.NonCoffeeUnchanged | src/components/WorldMap/WorldMap.tsx:40-76 | hovering or leaving a non-coffee country leaves the list unchanged |
| WorldMap.RecolorIdempotent | src/components/WorldMap/WorldMap.tsx:40-54 | repainting twice with the same country and colour equals repainting once |
| WorldMap.HoverIdempotent | src/components/WorldMap/WorldMap.tsx:40-54 | hovering the same country twice equals hovering it once |
| WorldMap.ConstructedAtRest | src/hooks/useCoffeeData.tsx:50-67 | a freshly built list shows every country at its resting colour |
| WorldMap.HoverThenLeaveRestores | src/components/WorldMap/WorldMap.tsx:40-76 | on a list at rest, hover(c) followed by leave(c) gives back the original list |
| WorldMap.ClassifyExamples | src/hooks/useCoffeeData.tsx:85-133 | "South America" classifies as America and "Africa" as Africa |
| WorldMap.SouthAmericaHoverScenario | src/components/WorldMap/WorldMap.tsx:32-77 | with two South American and one African coffee country, hover paints the South American two `#e2b58d` and keeps the African one `#d3a564`; leave paints the two back to `#af855f` |
| WorldMap.TooltipOffset | src/components/WorldMap/WorldMap.tsx:35-36 | the panel sits 10 to the right of and 10 below the cursor |
| WorldMap.MapSize | src/components/WorldMap/WorldMap.tsx:25-30 | a missing or zero dimension becomes 0; any other is kept |
| WorldMap.WorldMapView.constructor | src/components/WorldMap/WorldMap.tsx:14-16 | starts with no countries and the panel hidden |
| WorldMap.WorldMapView.LoadCountries | src/components/WorldMap/WorldMap.tsx:93-96 | the list becomes the join's result, which is at rest; the tooltip is untouched |
| WorldMap.WorldMapView.HandleMouseOverCountry | src/components/WorldMap/WorldMap.tsx:32-55 | the list becomes `HoverCountries` of the old list; the panel is shown at the cursor offset only for a coffee country when the panel exists, and otherwise keeps its state; a non-coffee country leaves the list unchanged |
| WorldMap.WorldMapView.HandleMouseLeaveCountry | src/components/WorldMap/WorldMap.tsx:57-77 | the list becomes `LeaveCountries` of the old list; the panel is hidden whenever it exists; its position is untouched |
| WorldMap.HoverRoundTrip | src/components/WorldMap/WorldMap.tsx:32-96 | load, hover and leave one country: the list equals the freshly built one and the panel is hidden |
| LegacyWorldMap.GetRegionColor | coffee-map/src/components/WorldMap/WorldMap.tsx:86-95 | equals the base-colour table at `Classify(region)` and the hook's `getRegionColor` |
| LegacyWorldMap.GetRegionHoverColor | coffee-map/src/components/WorldMap/WorldMap.tsx:97-106 | equals the hover-colour table at `Classify(region)` and the hook's `getRegionHoverColor` |
| LegacyWorldMap.Taste | coffee-map/src/components/WorldMap/WorldMap.tsx:108-123 | there is no taste profile exactly for Other |
| LegacyWorldMap.GetRegionTasteProfile | coffee-map/src/components/WorldMap/WorldMap.tsx:108-123 | equals this version's taste table at `Classify(region)` ("Nutty, Chocolate", "Fruity, Floral", "Earthy, Spice, Dark Chocolate"); it is absent exactly when the hook's is |
| LegacyWorldMap.IsMatchCoffeeRegion | coffee-map/src/components/WorldMap/WorldMap.tsx:125-129 | false when either side is not a coffee country; otherwise true exactly when the UN regions are equal |
| LegacyWorldMap.ConstructCountries | coffee-map/src/components/WorldMap/WorldMap.tsx:43-84 | one record per feature, in order; coffee country exactly when some producer resolves to `ADMIN`; every country is `#ddd` unless it is a coffee country, which gets its region's base colour |
| LegacyWorldMap.ConstructAgreesWithHook | coffee-map/src/components/WorldMap/WorldMap.tsx:43-84 | the older join agrees with the hook's on name, coffee flag, region fields and path attributes, and has a taste profile exactly when the hook's record does |
| LegacyWorldMap.TitleChild | coffee-map/src/components/WorldMap/WorldMap.tsx:201-204 | a `<title>` child is emitted exactly when the country has a taste profile, and it shows the summary |
| LegacyWorldMap.Recolor | coffee-map/src/components/WorldMap/WorldMap.tsx:135-149 | same length; only stroke and fill change; matching entries get the colour; other entries are unchanged |
| LegacyWorldMap.HoverThenLeaveRestores | coffee-map/src/components/WorldMap/WorldMap.tsx:134-172 | on a list at rest, hovering then leaving the same country gives back the original list |
| LegacyWorldMap.LegacyWorldMapView.constructor | coffee-map/src/components/WorldMap/WorldMap.tsx:132 | starts with no countries |
| LegacyWorldMap.LegacyWorldMapView.LoadCountries | coffee-map/src/components/WorldMap/WorldMap.tsx:174-183 | the list becomes this version's join result, which is at rest |
| LegacyWorldMap.LegacyWorldMapView.HandleMouseOverCountry | coffee-map/src/components/WorldMap/WorldMap.tsx:134-152 | matching entries take the hover colour; all other entries, and every field besides stroke and fill, are unchanged |
| LegacyWorldMap.LegacyWorldMapView.HandleMouseLeaveCountry | coffee-map/src/components/WorldMap/WorldMap.tsx:154-172 | matching entries take the base colour; all other entries, and every field besides stroke and fill, are unchanged |
| Scrape.CutAtParen | scripts/scrape.py:23-26 | the result is a prefix of the cell with no "("; a cell without "(" is unchanged |
| Scrape.CutAtFirstParen | scripts/scrape.py:23-26 | the cut keeps exactly the prefix before the first "(" |
| Scrape.NormaliseCell | scripts/scrape.py:20-27 | no comma; a prefix of the stripped, comma-free text; no "(" in column 1, where it is exactly the prefix before the first "(" and the whole stripped, comma-free text when there is no "("; in every other column exactly the stripped, comma-free text, "(" included |
| Scrape.NormaliseCells | scripts/scrape.py:20-28 | one cleaned cell per input cell |
| Scrape.NormaliseCellsAt | scripts/scrape.py:20-28 | cell `i` of the cleaned row is raw cell `i` cleaned at column index `i` |
| Scrape.NonEmpty | scripts/scrape.py:29 | no empty cell survives, and none is added |
| Scrape.NonEmptyMembers | scripts/scrape.py:29 | a cell survives exactly when it is a non-empty cell of the row |
| Scrape.NonEmptyAppend | scripts/scrape.py:29 | filtering distributes over concatenation, so the kept cells keep their relative order |
| Scrape.Scraped | scripts/scrape.py:16-29 | the header row is skipped and each later row yields exactly one output row |
| Scrape.ScrapedRowAt | scripts/scrape.py:16-29 | output row `k` is made of the non-empty cleaned cells of input row `k + 1`, so the rows keep their order |
| Scrape.ScrapedCellsClean | scripts/scrape.py:16-29 | no cell of the scraped table is empty or contains a comma |
| Scrape.NormaliseRow | scripts/scrape.py:18-28 | the inner loop builds exactly the cleaned cells of the row |
| Scrape.ScrapeRows | scripts/scrape.py:16-29 | the nested loops build exactly `Scraped(rows)` |
| Scrape.CutKeepsSpaceBeforeParen | scripts/scrape.py:21-26 | " Brazil (a)" becomes "Brazil " in column 1, so the space before "(" survives; it becomes "Brazil (a)" in column 2 |
| Scrape.CommasDeletedAfterStrip | scripts/scrape.py:21 | " 1,234 " becomes "1234" |
| Scrape.StripBeforeCommaRemoval | scripts/scrape.py:21 | stripping runs before the commas are deleted: ", 5" becomes " 5", not "5" |
| Scrape.LoneCommaDropped | scripts/scrape.py:21-29 | " , " becomes the empty cell, which the row filter then drops |

## Left out

- Map projection and path generation (`geoEquirectangular().fitSize`, `geoPath`): this is a geometry library working in floating point. The path is the parameter `pathOf`, and `None` stands for a generator that returns nothing. The older version's fixed 800 by 400 fit is part of that parameter.
- React itself is not modelled:
  - rendering;
  - `useState`, `useEffect`, `useMemo` and `useRef`;
  - the handlers reading a stale `mapCountries`;
  - `useWindowSize` from `codefee-kit`.

  State updates are applied at once to the current list.
- Tooltip DOM handling: the `'px'` strings, `style.display`, `renderTooltipContent` and the panel's content are left out. What remains is a visibility flag, an integer position, and `tooltipMounted` for whether the panel's element exists.
- `src/components/Tooltip/Tooltip.tsx` is not part of this model. It is a presentational wrapper with no logic.
- The scraper's network and file work is left out: the HTTP request, the BeautifulSoup parsing, the pandas DataFrame and the file write. A table is its rows, each row the texts of its `td` cells.
- Text.Strip: Python's `str.strip()` removes every Unicode whitespace character. The model removes only a fixed set: space, tab, line feed, carriage return, vertical tab, form feed and no-break space.
- The contents of the bundled producer and world-geometry datasets: both are inputs.
- JavaScript property-lookup quirks are left out. Plain objects inherit keys such as `constructor`, so `exceptionCountryNames['constructor']` is not `undefined`. The model's tables hold exactly the keys written in the source.
- JavaScript numbers as integers:
  - `pageX`, `pageY`, `width` and `height` are unbounded integers.
  - WorldMap.MapSize: a missing dimension is `None`, and `NaN`, which `||` also maps to 0, is not modelled.
- Strings are sequences of characters. JavaScript's UTF-16 code units and Python's code points are not distinguished.

# VeloNomand core, modelled in Dafny

VeloNomand is a map app for outdoor travellers. It loads points of interest (POIs) from several mock
providers, merges and filters them for display, caches map tiles for offline use, and tints the map
and a particle overlay with the weather. This project models the rule-bearing core of seven
components and proves what their code promises:

- **Offline tile manager** (`OfflineTiles`). It enumerates the tiles `{x, y, z}` of an area, splits
  them into batches of 10 and uses the tile key `z/x/y` to both store and look up tiles. The download
  run checks the store, fetches only the missing tiles, writes only bodies from ok responses, and
  counts every attempt. The area registry is kept by `saveArea` and `preloadArea`. The manager is a
  class whose fields are the tile store (`map<string, Blob>`), the area list and the persisted
  metadata value. The per-zoom tile span is a parameter of the class.
- **POI manager** (`PoiManager`):
  - `mergeAndDeduplicate` merges by id with object spread, in first-occurrence order;
  - the derived views `filteredPOIs`, `warningPOIs` and `nearbyPOIs`;
  - the month-to-season rule of `loadSeasonalPOIs`;
  - the request-selection rule of `loadPOIsForBounds`, with the store of loaded POIs as a class.
- **Water sources** (`WaterSources`). `removeDuplicateWaterSources` keeps one source per coordinate
  key, with the priority official > osm > community and, for the same source, the newer
  `lastVerified`. `getWaterSources` composes the three fetchers.
- **Wildlife warnings** (`WildlifeWarnings`): the month-driven seasonal warnings, the composition of
  the three sources and the `activeOnly` filter.
- **Restricted areas** (`RestrictedAreas`): the category dispatch, the `Set` deduplication of the
  results, and the "next Saturday" date arithmetic of the temporary restrictions.
- **Hazardous terrain** (`HazardousTerrain`): the composition of the five fetchers and the winter
  gate of the ice fetcher.
- **Particle overlay** (`Particles`). A `ParticleSystem` class holds `particles`, `isActive`,
  `currentEffect` and `animationFrame`, with the exact count tables for device tier and battery
  level.
- **Water colouring** (`WaterControl`): the `#rrggbb` codec behind `adjustColorBrightness` and
  `desaturateColor`, the `waterAnimOffset` invariant and the clamps of `updateWater`.

Shared modules:

| module | contents |
|---|---|
| `Wrappers` | `Option`; `Outcome` (a value or a thrown error); `RunAll`, the sequential reading of `Promise.all`. |
| `Seqs` | filter, flatten, `Array.from(new Set(...))` and fold-style runs. |
| `PoiTypes` | the POI record. |
| `Decimal` | the decimal rendering of integers in template strings, and its parse. |

Everything random, timed or external becomes a parameter of the model:

- `Math.random` draws (as reals in [0, 1), compared with the source's thresholds);
- the current month, weekday, day and `Date.now`;
- fetch outcomes and persistence outcomes;
- the Web Mercator tile span, `toFixed` and the Haversine distance.

## Model

| member | source | states |
|---|---|---|
| OfflineTiles.OfflineManager.GetTilesInBounds | offlinemanager.ts:203-224 | The nested z, x, y loops return exactly the enumeration `TilesInBounds` of the zoom range. |
| OfflineTiles.OfflineManager.ZoomLevel | offlinemanager.ts:216-220 | The x and y loops of one zoom level return that level's tiles in x-then-y order. |
| OfflineTiles.TilesInBoundsMembership | offlinemanager.ts:207-221 | A tile is emitted iff its zoom is in minZoom..maxZoom and its x and y lie in that zoom's span (so an empty zoom range emits nothing). |
| OfflineTiles.TilesInBoundsOrdered | offlinemanager.ts:207-220 | The tiles come strictly ordered by z, then x, then y, so no (z, x, y) is emitted twice. |
| OfflineTiles.TilesPerZoom | offlinemanager.ts:207-221 | The tiles of zoom z, in emission order, are exactly that level's span enumeration. |
| OfflineTiles.ZoomCount | offlinemanager.ts:216-220 | A zoom level contributes (maxX−minX+1)·(maxY−minY+1) tiles when both spans are non-empty, else none. |
| OfflineTiles.ZoomMembership | offlinemanager.ts:218 | Every tile of a zoom level carries that zoom. |
| OfflineTiles.RowsFacts | offlinemanager.ts:216-220 | The x loop over columns emits exactly the covered (x, y) pairs, ordered, with the product count. |
| OfflineTiles.RowsMembership | offlinemanager.ts:216-220 | Membership in the x loop's output is exactly xlo≤x≤xhi and ylo≤y≤yhi. |
| OfflineTiles.RowsOrdered | offlinemanager.ts:216-220 | The x loop's output is ordered by x, then y. |
| OfflineTiles.RowsCount | offlinemanager.ts:216-220 | The x loop emits (xhi−xlo+1)·(yhi−ylo+1) tiles, or none for an empty range. |
| OfflineTiles.ColumnFacts | offlinemanager.ts:217-219 | The y loop emits exactly the tiles with lo≤y≤hi, in increasing y, hi−lo+1 of them. |
| OfflineTiles.ChunksFlatten | offlinemanager.ts:273-278 | Concatenating the batches gives back the input list. |
| OfflineTiles.ChunkSizes | offlinemanager.ts:273-278 | There are ceil(n/size) batches (none for an empty list); all have `size` elements except the last, which has 1..size. |
| OfflineTiles.TileKeyRoundTrip | offlinemanager.ts:167 | Splitting the key `z/x/y` on '/' and parsing the parts gives back (z, x, y), negatives included. |
| OfflineTiles.KeyInjective | offlinemanager.ts:167 | Distinct tiles have distinct keys, so the keys of one run never collide. |
| OfflineTiles.SplitThree | offlinemanager.ts:167 | Three slash-free parts joined by '/' split back into those three parts. |
| OfflineTiles.Split | offlinemanager.ts:167 | Splitting a string yields at least one part. |
| OfflineTiles.Server | offlinemanager.ts:231 | The subdomain is 'a', 'b' or 'c': 'a' for draws below 1/3, 'c' from 2/3 on. |
| OfflineTiles.TileUrlShape | offlinemanager.ts:229-233 | The URL is `https://` + the subdomain + `.tile.openstreetmap.org/` + the tile key + `.png`. |
| OfflineTiles.OfflineManager.GetOfflineTile | offlinemanager.ts:261-268 | The lookup uses the same key as storing; it returns the stored body iff the key is present, else null. |
| OfflineTiles.StoreAfterSpec | offlinemanager.ts:163-186 | A run never overwrites a stored key. Every key it adds belongs to a listed tile whose fetch returned that body. Every listed tile whose fetch succeeded ends up stored. |
| OfflineTiles.RunKeeps | offlinemanager.ts:169-171 | For any key function, a key present before a run keeps its value. |
| OfflineTiles.RunAdded | offlinemanager.ts:174-179 | For any key function, a key that a run adds comes from a listed tile with an ok fetch of that body. |
| OfflineTiles.RunFetched | offlinemanager.ts:174-179 | For any key function, a listed tile whose fetch succeeds is stored after the run. |
| OfflineTiles.RequestedSpec | offlinemanager.ts:170-173 | A run requests a tile iff it is listed and its key was missing when the run started. |
| OfflineTiles.MissingRequested | offlinemanager.ts:170-173 | For any key function, a requested tile is listed and its key was missing at the start; conversely, when the key function separates the listed tiles, every listed tile whose key was missing is requested. |
| OfflineTiles.RequestedNone | offlinemanager.ts:170-173 | When every listed key is already stored, a run issues no request. |
| OfflineTiles.NoneMissing | offlinemanager.ts:170-173 | For any key function, a fully cached list issues no request. |
| OfflineTiles.RerunRequestsNothing | offlinemanager.ts:170-179 | After a run in which every needed fetch succeeded, a second run over the same tiles requests nothing. |
| OfflineTiles.BatchStep | offlinemanager.ts:163-186 | Running the first ci+1 batches is running the first ci batches and then batch ci, for store and requests alike. |
| OfflineTiles.OfflineManager.CacheTile | offlinemanager.ts:165-185 | One tile attempt: reports whether the key was present, and leaves the store as `Attempt` describes (skip when present, write only an ok body). |
| OfflineTiles.OfflineManager.DownloadBatch | offlinemanager.ts:164-186 | A batch counts each of its tiles once, and leaves the store and the request list of a run over the batch. |
| OfflineTiles.OfflineManager.DownloadBatches | offlinemanager.ts:163-192 | Completed equals the number of tiles, whatever each attempt's ending. The store and the requests are those of one run over all tiles in order. There is one pause per batch in foreground mode and none in background mode. |
| OfflineTiles.OfflineManager.DownloadTilesForArea | offlinemanager.ts:122-198 | completed == total == area.tileCount == the number of enumerated tiles. The store is that of a run over batches of 10. It subscribes iff not in background, the area list is unchanged, and the list is persisted iff the final write succeeds. |
| OfflineTiles.OfflineManager.SaveArea | offlinemanager.ts:58-81 | Appends exactly one new area (given or default zoom, tile count 0 until its download runs) at the end and returns whether the persist succeeded. On failure the area stays in memory and nothing is downloaded. After a successful persist the store holds the final list when the download's own write succeeds, and otherwise still the list written first, with the new area at tile count 0. |
| OfflineTiles.OfflineManager.PreloadArea | offlinemanager.ts:86-101 | Never changes the area list or any listed area. Its download runs in background mode (no subscription, no pause) over the area's tiles. |
| OfflineTiles.OfflineManager.constructor | offlinemanager.ts:13-28 | The areas are loaded from the metadata store when its read succeeds and it holds a list, else the list starts empty. |
| OfflineTiles.OfflineManager.LoadAreas | offlinemanager.ts:43-53 | The loaded area objects serialise back to exactly the stored records, in order. |
| OfflineTiles.SnapshotAppend | offlinemanager.ts:70-71 | Serialising a list with one more area appends that area's record. |
| OfflineTiles.Area.constructor | offlinemanager.ts:60-67 | A new area holds the given id, name, bounds, zoom, timestamp and tile count. |
| Decimal.IntRoundTrip | offlinemanager.ts:167 | Parsing the decimal rendering of any integer gives back that integer. |
| Decimal.DigitsRoundTrip | offlinemanager.ts:167 | The digits of a natural number evaluate back to it. |
| Decimal.ParseDigits | offlinemanager.ts:167 | A non-empty digit string parses to its value. |
| Decimal.ParseNegative | offlinemanager.ts:167 | A minus sign followed by digits parses to the negated value. |
| Decimal.NoSlash | offlinemanager.ts:167 | No rendered integer contains '/', so the key's parts are separable. |
| Decimal.NatDigits | offlinemanager.ts:167 | A rendered natural number is a non-empty string of decimal digits. |
| Decimal.DigitChar | offlinemanager.ts:167 | A digit renders as a character in '0'..'9'. |
| Wrappers.RunAll | POIManager.ts:347 | Awaiting all requests throws iff one of them throws, and otherwise yields one result per request, in request order. |
| PoiManager.MergeAndDeduplicate | POIManager.ts:406-421 | The forEach over a Map returns exactly `Merge` of the input. |
| PoiManager.RepresentsStep | POIManager.ts:410-418 | One forEach step keeps the Map plus its insertion order in step with the merged list, for a repeated id and for a new one. |
| PoiManager.MergeIds | POIManager.ts:406-421 | The merged list has exactly one POI per distinct input id, in first-occurrence order. |
| PoiManager.MergeInsertIds | POIManager.ts:411-417 | A repeated id leaves the id list unchanged, and a new id is appended. |
| PoiManager.MergeValues | POIManager.ts:410-415 | Each merged POI is the left-to-right spread of all input POIs with its id. |
| PoiManager.MergeStep | POIManager.ts:410-415 | Merging one more POI keeps every entry equal to the spread of its id's POIs so far. |
| PoiManager.SpreadAllFields | POIManager.ts:414 | In a spread of POIs, required fields come from the last POI; each optional field comes from the last POI that has it, so fields only an earlier POI has survive. |
| PoiManager.SpreadAllRequired | POIManager.ts:414 | In a spread, the required fields come from the last POI. |
| PoiManager.SpreadAllEvents | POIManager.ts:414 | In a spread, the event fields come from the last POI that has them. |
| PoiManager.SpreadAllOthers | POIManager.ts:414 | In a spread, elevation, isActive and distance come from the last POI that has them. |
| PoiManager.Ids | POIManager.ts:411 | The id list lines up with the POI list. |
| PoiManager.FilteredPois | POIManager.ts:197-207 | A POI is kept iff it is in the list and both its category and its subcategory are enabled; each kept POI occurs as often as in the input, and the result is a subsequence of the input, so the input order is kept. |
| PoiManager.WarningPois | POIManager.ts:233-240 | A POI is kept iff its category is 'warning' or it has an active safety warning; each kept POI occurs as often as in the input, and the result is a subsequence of the input. |
| PoiManager.NearbyPois | POIManager.ts:211-229 | Empty without a location. Otherwise every result has a distance of at most 10000, the list is sorted by non-decreasing distance, and it is a permutation of the in-radius POIs annotated with their distance. |
| PoiManager.NearbyComplete | POIManager.ts:217-227 | Every filtered POI within 10000 of the location appears, annotated with its distance. |
| PoiManager.SortByDistance | POIManager.ts:228 | Sorting by distance yields a permutation that is sorted by non-decreasing distance. |
| PoiManager.SortBy | POIManager.ts:228 | The insertion sort yields a permutation of its input, sorted by the key. |
| PoiManager.InsertBy | POIManager.ts:228 | Inserting adds exactly one occurrence of the element to the multiset. |
| PoiManager.InsertSorted | POIManager.ts:228 | Inserting into a sorted list keeps it sorted. |
| PoiManager.Queued | POIManager.ts:246-344 | The request list always starts with the OSM request for the active categories and ends with the crisis resources request. |
| PoiManager.QueuedSpec | POIManager.ts:248-344 | A request is queued iff the active categories ask for it. Each fetcher has its own condition in `Asked`: the cave query iff 'survival.cave', spiritual places for a wellness or a culture category, and so on. |
| PoiManager.SurvivalAsked | POIManager.ts:249-264 | The iff of `QueuedSpec` for the OSM, water and camping requests. |
| PoiManager.FoodAsked | POIManager.ts:266-284 | The iff of `QueuedSpec` for the food requests. |
| PoiManager.CommunityAsked | POIManager.ts:286-299 | The iff of `QueuedSpec` for the community requests. |
| PoiManager.WellnessAsked | POIManager.ts:301-313 | The iff of `QueuedSpec` for the medical, spiritual and adventure requests. |
| PoiManager.CultureAsked | POIManager.ts:315-323 | The iff of `QueuedSpec` for events and festivals. |
| PoiManager.WarningAsked | POIManager.ts:325-344 | The iff of `QueuedSpec` for the warning, bike-service and crisis requests. |
| PoiManager.Blocks | POIManager.ts:248-344 | A request is in the list iff it is in one of the blocks. For each block, the requests it holds are exactly those whose condition holds. |
| PoiManager.QueuedParts | POIManager.ts:248-344 | Membership in the request list splits over the OSM request, the six blocks and the crisis request. |
| PoiManager.SurvivalMembers | POIManager.ts:253-264 | The survival block holds water iff 'survival.water', camping iff 'survival.wildcamp', and the cave OSM query iff 'survival.cave'. |
| PoiManager.FoodMembers | POIManager.ts:266-284 | The food block holds each food fetcher exactly when its category (or one of the four foraging categories) is active. |
| PoiManager.CommunityMembers | POIManager.ts:286-299 | The community block has a prefix rule for community POIs and set membership for the alternatives and couchsurfing. |
| PoiManager.WellnessMembers | POIManager.ts:301-313 | The wellness block holds medical, spiritual and adventure requests exactly under their conditions. |
| PoiManager.CultureMembers | POIManager.ts:315-323 | Events and festivals are queued together for festival or seasonal culture; spiritual places for 'culture.spiritual'. |
| PoiManager.WarningMembers | POIManager.ts:325-341 | The warning block holds wildlife, weather, hazards (any 'warning' prefix) and bike service exactly under their conditions. |
| PoiManager.QueuedNothing | POIManager.ts:246-344 | With no active category only the OSM and crisis requests are queued. |
| PoiManager.SurvivalRequests | POIManager.ts:253-264 | The survival pushes produce the survival block. |
| PoiManager.FoodRequests | POIManager.ts:266-284 | The food pushes produce the food block. |
| PoiManager.CommunityRequests | POIManager.ts:286-299 | The community pushes produce the community block. |
| PoiManager.WellnessRequests | POIManager.ts:301-313 | The wellness and adventure pushes produce the wellness block. |
| PoiManager.CultureRequests | POIManager.ts:315-323 | The culture pushes produce the culture block. |
| PoiManager.WarningRequests | POIManager.ts:325-341 | The warning and practical pushes produce the warning block. |
| PoiManager.BoundsRequests | POIManager.ts:246-344 | The push sequence of `loadPOIsForBounds` builds exactly `Queued`. |
| PoiManager.PoiStore.LoadPoisForBounds | POIManager.ts:244-356 | Runs the queued requests. If one throws, the call throws and the store is unchanged. Otherwise it returns the merge of the flattened results and stores it in `allPOIs`. |
| PoiManager.PoiStore.constructor | POIManager.ts:194 | The store starts empty. |
| PoiManager.Season | POIManager.ts:360-367 | Months 3-5 are spring, 6-8 summer, 9-11 autumn, anything else winter; exactly one season holds. |
| PoiManager.SeasonalRequests | POIManager.ts:370-387 | The OSM request for `seasonal.<season>` first, then forage for the season, then festivals for every season but spring (2 requests in spring, 3 otherwise). |
| PoiManager.LoadSeasonalPois | POIManager.ts:359-392 | The flattened results of those requests, or the thrown error. |
| WaterSources.RemoveDuplicateWaterSources | waterSourcesApi.ts:260-306 | The loop, with its key set and in-place replacement, returns exactly `Dedup` of the input. |
| WaterSources.InsertKeys | waterSourcesApi.ts:271-302 | One step keeps the key list when the key is present, and appends the key when it is new. |
| WaterSources.DedupKeys | waterSourcesApi.ts:260-306 | The output keys are the distinct input keys in first-occurrence order: one source per key, and every input key present. |
| WaterSources.DedupFromInput | waterSourcesApi.ts:260-306 | Every output source is one of the input sources. |
| WaterSources.DedupSurvivor | waterSourcesApi.ts:281-300 | No input source would replace the survivor of its key (the survivor is maximal under the preference). |
| WaterSources.TieKeepsEarlier | waterSourcesApi.ts:293-299 | With the strict date test, of two entries with the same coordinates, source and date the later one is not kept: the earlier entry stays. |
| WaterSources.SurvivorStep | waterSourcesApi.ts:281-300 | One more input keeps the "no input would replace a survivor" invariant. |
| WaterSources.OfficialWins | waterSourcesApi.ts:285-287 | If any input source with a key is official, that key's survivor is official. |
| WaterSources.ReplacesStrictOrder | waterSourcesApi.ts:284-300 | The replacement rule is irreflexive and transitive (a strict priority order). |
| WaterSources.IndexOfKey | waterSourcesApi.ts:276-279 | findIndex returns the first index with the key, or −1 iff none has it. |
| WaterSources.Keys | waterSourcesApi.ts:269 | The key list lines up with the source list. |
| WaterSources.GetWaterSources | waterSourcesApi.ts:11-32 | Deduplicates osm ++ official ++ community, in that order, and returns [] if any fetch throws. |
| WaterSources.FetchOsmWaterSources | waterSourcesApi.ts:37-103 | Two osm water sources. |
| WaterSources.FetchOfficialWaterSources | waterSourcesApi.ts:108-156 | One official water source when the draw exceeds 0.5, else none. |
| WaterSources.FetchCommunityWaterSources | waterSourcesApi.ts:161-255 | Two community water sources. |
| WildlifeWarnings.FetchWildlifeWarnings | wildlifeWarningsApi.ts:11-39 | Any thrown error yields []. Without `activeOnly` the result is community ++ official ++ seasonal. With it, the result holds exactly those warnings with an active safety warning, each as often as in the concatenation, as a subsequence of it (input order). |
| WildlifeWarnings.MockWarningsAllActive | wildlifeWarningsApi.ts:27-31 | With the mock sources, `activeOnly` does not change the result. |
| WildlifeWarnings.ActiveOnlyKeepsAll | wildlifeWarningsApi.ts:27-31 | When all sources report only active warnings, the filter keeps everything in order. |
| WildlifeWarnings.SeasonalAllActive | wildlifeWarningsApi.ts:149-261 | Every seasonal warning is active. |
| WildlifeWarnings.SeasonalSpecies | wildlifeWarningsApi.ts:162-258 | Boar iff month ≥ 11 or ≤ 1; ticks iff 5..9; deer iff 9..10; no repeats; September gives [ticks, deer] and February-April none. |
| WildlifeWarnings.GetSeasonalWildlifeWarnings | wildlifeWarningsApi.ts:149-261 | The conditional pushes give one warning per in-season species, in the order boar, ticks, deer. |
| WildlifeWarnings.SeasonalWarnings | wildlifeWarningsApi.ts:149-261 | One warning per listed species, in the same order. |
| WildlifeWarnings.SeasonalWarning | wildlifeWarningsApi.ts:163-258 | A seasonal warning is active, has source 'seasonal' and is verified now. |
| WildlifeWarnings.FetchCommunityWildlifeReports | wildlifeWarningsApi.ts:44-92 | Exactly one active community warning of moderate severity. |
| WildlifeWarnings.FetchOfficialWildlifeReports | wildlifeWarningsApi.ts:97-144 | One active official warning, verified a week ago, when the draw exceeds 0.7; else none. |
| RestrictedAreas.QueueRequests | restrictedAreasApi.ts:24-45 | The five conditional pushes build exactly `Queued`, the filter of the five fetchers by their conditions. |
| RestrictedAreas.PushedIsQueued | restrictedAreasApi.ts:27-45 | The push sequence equals the ranked filter. |
| RestrictedAreas.QueuedMembership | restrictedAreasApi.ts:27-45 | A fetcher is queued iff its category is enabled; protected areas iff 'nature' or 'wildlife'. |
| RestrictedAreas.QueuedOrdered | restrictedAreasApi.ts:27-45 | Queued fetchers keep the order military, drone, private, protected, temporary, each at most once. |
| RestrictedAreas.FilterRanked | restrictedAreasApi.ts:27-45 | Filtering a rank-ascending list keeps it ascending. |
| RestrictedAreas.QueuedDefault | restrictedAreasApi.ts:20-22 | The default filter enables all five fetchers. |
| RestrictedAreas.QueuedEmpty | restrictedAreasApi.ts:25-45 | An empty filter queues nothing. |
| RestrictedAreas.FetchRestrictedAreas | restrictedAreasApi.ts:14-57 | [] if a fetcher throws; otherwise the distinct flattened results in first-occurrence order. The result never repeats an element, and an empty filter gives []. |
| RestrictedAreas.DaysUntilSaturday | restrictedAreasApi.ts:391 | For a weekday 0..6, (6 − day + 7) % 7 lies in 0..6 and lands on Saturday. |
| RestrictedAreas.Weekday | restrictedAreasApi.ts:391 | The weekday of a day number lies in 0..6. |
| RestrictedAreas.EventWindow | restrictedAreasApi.ts:389-398 | The event starts at 9:00 on the next Saturday (today included) within six days, and ends at 18:00 the following Sunday. |
| RestrictedAreas.FetchMilitaryAreas | restrictedAreasApi.ts:62-127 | One official extreme-severity area when the draw exceeds 0.8, else none. |
| RestrictedAreas.FetchDroneRestrictions | restrictedAreasApi.ts:132-225 | Exactly two official active restrictions with different ids. |
| RestrictedAreas.FetchPrivateProperty | restrictedAreasApi.ts:230-291 | One active osm-sourced area when the draw exceeds 0.7, else none. |
| RestrictedAreas.FetchProtectedAreas | restrictedAreasApi.ts:296-365 | One active official area when the draw exceeds 0.6, else none. |
| RestrictedAreas.FetchTemporaryRestrictions | restrictedAreasApi.ts:370-449 | When the draw exceeds 0.8, one temporary event, from Saturday 9:00 to Sunday 18:00; else none. |
| HazardousTerrain.FetchHazardousTerrain | hazardousTerrainApi.ts:16-37 | [] if any fetcher throws, else quicksand ++ swamp ++ cliffs ++ ice ++ geothermal. |
| HazardousTerrain.MockHazards | hazardousTerrainApi.ts:16-415 | With the mock fetchers: at most six hazards, all terrain warnings. Only an ice hazard outside winter is inactive, so with seasonAdjusted all are active. |
| HazardousTerrain.FetchUnstableIceAreas | hazardousTerrainApi.ts:272-351 | Returns [] when season-adjusted outside winter (November to March). Otherwise one area when the draw exceeds 0.7, whose warning and isActive flag equal "is winter". |
| HazardousTerrain.FetchQuicksandAreas | hazardousTerrainApi.ts:42-96 | One active area when the draw exceeds 0.9, else none. |
| HazardousTerrain.FetchSwampAreas | hazardousTerrainApi.ts:101-198 | Two active areas when the draw exceeds 0.7, else none. |
| HazardousTerrain.FetchSteepCliffs | hazardousTerrainApi.ts:203-267 | One active area when the draw exceeds 0.6, else none. |
| HazardousTerrain.FetchGeothermalAreas | hazardousTerrainApi.ts:356-415 | One active area when the draw exceeds 0.95, else none. |
| Particles.DeviceFactor | ParticelSystem.ts:144-145 | The device factor is 1 for 'high', 0.7 for 'medium' and 0.3 for any other tier, so it lies in (0, 1]. |
| Particles.BaseCount | ParticelSystem.ts:143-157 | floor(base · factor): rain 300/210/90, snow 150/105/45, mist 50/35/15, unknown types 0. |
| Particles.BatteryFactor | ParticelSystem.ts:93-94 | The battery factor is 0.5 below 0.3, 0.75 below 0.5, and 1 otherwise. |
| Particles.TargetCount | ParticelSystem.ts:97 | The target never exceeds the base count and equals it from 50 % battery on. |
| Particles.TargetMonotone | ParticelSystem.ts:93-97 | A fuller battery never yields fewer particles. |
| Particles.ParticleSystem.OnlyKnownParticles | ParticelSystem.ts:111-138 | Under the class invariant, an effect type that creates no particles has none. |
| Particles.ParticleSystem.constructor | ParticelSystem.ts:8-17 | A new system is empty, inactive and without effect. |
| Particles.ParticleSystem.CreateParticles | ParticelSystem.ts:162-237 | The create loops append exactly `count` particles of the type and change nothing else. |
| Particles.ParticleSystem.AddParticles | ParticelSystem.ts:421-433 | Appends `count` particles of a known type, and does nothing for another type. |
| Particles.ParticleSystem.Start | ParticelSystem.ts:242-248 | Does nothing when already active; otherwise activates and records the next frame. |
| Particles.ParticleSystem.Stop | ParticelSystem.ts:253-260 | Always inactive afterwards; a pending non-zero frame handle is cleared. |
| Particles.ParticleSystem.ClearEffects | ParticelSystem.ts:265-270 | It leaves the system inactive, with no particles and no effect. |
| Particles.ParticleSystem.SetEffect | ParticelSystem.ts:111-138 | Clears, then records the type. Rain, snow or mist get exactly the base count of that type and end active. Any other type stays empty and inactive, with the frame handle as `ClearEffects` leaves it. |
| Particles.ParticleSystem.AdjustParticleCountForBattery | ParticelSystem.ts:89-106 | A no-op unless an effect is set and the system is active. Otherwise the list is cut to its first `target` particles, or topped up with particles of the current type until it has `target`. |
| Particles.ParticleSystem.UpdateParticles | ParticelSystem.ts:406-416 | Keeps the number and type of the particles, and the effect and activity. |
| WaterControl.AdjustColorBrightness | WaterController.ts:135-154 | For a `#rrggbb` input the result is a lowercase `#rrggbb` colour whose channels are the brightened input channels. |
| WaterControl.Brighten | WaterController.ts:143-146 | A channel becomes round(c · (0.2 + factor)) when that lies in [0, 255], 255 when it is above and 0 when it is below; a missing channel stays missing. |
| WaterControl.DesaturateColor | WaterController.ts:159-178 | For a `#rrggbb` input and factor in [0, 1], the result is a lowercase `#rrggbb` colour whose channels are blended toward the rounded average. |
| WaterControl.BlendInRange | WaterController.ts:170 | A blended channel stays in [0, 255]. |
| WaterControl.BlendExtremes | WaterController.ts:170 | Factor 0 keeps the channel and factor 1 gives the average. |
| WaterControl.DesaturateByZero | WaterController.ts:159-178 | Desaturating by 0 returns the input channels. |
| WaterControl.DesaturateByOne | WaterController.ts:159-178 | Desaturating by 1 makes all three channels equal the average. |
| WaterControl.FormatRoundTrip | WaterController.ts:137-153 | Formatting three bytes and parsing the colour back gives the same bytes, in a lowercase `#rrggbb` string. |
| WaterControl.PairsColor | WaterController.ts:137-153 | Joining three two-digit lowercase hex fields yields a colour whose channels parse back from those fields. |
| WaterControl.ByteRoundTrip | WaterController.ts:149 | A byte formats to two lowercase hex digits that parse back to it. |
| WaterControl.ChannelsOfHexColor | WaterController.ts:137-140 | The channels of `#rrggbb` are the values of digit pairs 0-1, 2-3 and 4-5 after the '#'. |
| WaterControl.ParsePair | WaterController.ts:138-140 | parseInt of two hex digits is their byte value. |
| WaterControl.ParseHex | WaterController.ts:138-140 | On the strings this model feeds it, parseInt(…, 16) fails iff the text does not start with a hex digit. |
| WaterControl.HexPrefixLen | WaterController.ts:138-140 | parseInt reads the longest leading run of hex digits. |
| WaterControl.PairValue | WaterController.ts:138-140 | Two hex digits denote a value in 0..255. |
| WaterControl.DigitValue | WaterController.ts:138-140 | A hex digit is worth less than 16. |
| WaterControl.Digit | WaterController.ts:149 | A value below 16 formats as a lowercase hex digit worth that value. |
| WaterControl.HexDigits | WaterController.ts:149 | toString(16) gives a non-empty run of lowercase hex digits. |
| WaterControl.PadStart2 | WaterController.ts:149 | padStart(2, '0') leaves two or more characters alone, and left-pads shorter text with zeros to length 2. |
| WaterControl.StripHash | WaterController.ts:137 | replace('#', '') removes a leading '#', and leaves text without '#' unchanged. |
| WaterControl.Round | WaterController.ts:146 | Math.round(x) is the integer n with n − 0.5 ≤ x < n + 0.5. |
| WaterControl.WaterColor | WaterController.ts:97-103 | For a hex base colour the result is a lowercase hex colour. Above intensity 0.3 its channels are the base's channels brightened by the intensity; otherwise they are the base's channels blended halfway to their average, then brightened. |
| WaterControl.BaseIsHexColor | WaterController.ts:97 | The base water colour is a `#rrggbb` colour. |
| WaterControl.LowerIsHexColor | WaterController.ts:153 | A lowercase hex colour is a hex colour. |
| WaterControl.ReflectionOpacity | WaterController.ts:109-110 | The opacity is at most 0.15. A missing or zero turbidity falls back to 0.3, giving 0.129. A positive turbidity gives 0.08 + (1 − turbidity) · 0.07, and a negative one the cap 0.15. |
| WaterControl.FlowSpeed | WaterController.ts:116 | The flow speed lies in [0.05, 0.3]. A falsy rate (missing or 0) gives 0.1, and an in-range rate is kept. A truthy rate above 0.3 gives 0.3, and one below 0.05 (negative included) gives 0.05. |
| WaterControl.WaveHeight | WaterController.ts:122 | The wave height lies in [0.2, 1.0]. A falsy height gives 0.3, and an in-range height is kept. A truthy height above 1.0 gives 1.0, and one below 0.2 (negative included) gives 0.2. |
| WaterControl.OrDefault | WaterController.ts:110-122 | The `or` fallback of the three inputs: a missing or zero value gives the default, any other value is kept. |
| WaterControl.Clamp | WaterController.ts:116-122 | max(lo, min(hi, x)) lies in [lo, hi]: an in-range x is kept, x below lo gives lo and x above hi gives hi. |
| WaterControl.Rem512 | WaterController.ts:117 | `% 512` of a non-negative offset lies in [0, 512) and keeps an offset already below 512. |
| WaterControl.PaintFor | WaterController.ts:95-126 | The paint has a lowercase hex fill, an opacity of at most 0.15, and wave width in [0.3, 1.5] and opacity in [0.08, 0.4] exactly when the waves layer exists. |
| WaterControl.WaterController.Animate | WaterController.ts:67-79 | An animation step advances the offset by 0.1 modulo 512, keeps it in [0, 512), and records the frame. |
| WaterControl.WaterController.UpdateWater | WaterController.ts:92-130 | Does nothing when the map is not loaded. Otherwise it yields the paint and advances the offset by the flow speed modulo 512 only when the flow layer exists, keeping it in [0, 512). |
| WaterControl.WaterController.constructor | WaterController.ts:5-11 | The offset starts at 0, inside [0, 512). |

## Left out

- Web Mercator projection (offlinemanager.ts:209-213): the per-zoom tile span is a parameter of the manager. Nothing is claimed about x and y staying in [0, 2^z − 1], because the source clamps nothing.
- `getBoundsFromCenterRadius` (offlinemanager.ts:106-117) is a floating-point cosine approximation; `PreloadArea` takes the resulting bounds as input.
- The progress reporter is not modelled. This covers the `Observable` and its `setInterval` callback (offlinemanager.ts:138-150, 289-313); only whether a listener is attached is recorded. Its `complete()` call would throw, because `subscribe` passes only `next`.
- `getOfflineStyle` (offlinemanager.ts:238-256) and `getInstance` are a constant style literal and the singleton accessor.
- Concurrency is not modelled. `Promise.all` over a batch runs as a sequential loop, which suffices because the keys within one run are distinct (`KeyInjective`). The un-awaited download started by `saveArea` is modelled as running to completion before the call returns. The constructor treats the un-awaited `loadSavedAreas` as finished before any other call, so the case of a `saveArea` made before the load resolves, whose push the load then overwrites (offlinemanager.ts:47), is not modelled. `setTimeout` pauses are only counted.
- LocalForage failures are modelled only as a read flag and write-outcome flags. A tile-store `getItem` or `setItem` inside a tile attempt never fails in the model.
- Texts, icons, descriptions, ISO date strings and the German mock wording are not modelled; mock records carry only the fields the rules read.
- `toFixed` (waterSourcesApi.ts:269) and the Haversine distance (POIManager.ts:423-437) are floating point. The coordinate formatter and the distance function are parameters.
- The default categories of `loadPOIsForBounds` (POIManager.ts:245) are not modelled. `Object.values` of a store makes `startsWith` throw at POIManager.ts:287, so only explicit category lists are modelled.
- Duplicate requests are modelled as they occur, not removed. `Queued` can hold the spiritual-places request twice, and the cave query can coincide with the base OSM query; `QueuedSpec` is about membership.
- `loadActiveWarnings` (POIManager.ts:395-404) only concatenates three provider calls, and those providers are not part of this model.
- Particle motion, canvas drawing, `destroy`, resize handling and the battery event wiring (ParticelSystem.ts:162-237 positions, 286-401) are left out. A particle is reduced to its type tag.
- The maplibre calls of WaterController.ts (layer styling, event wiring and the dash-array paint calls) are left out. `updateWater`'s try/catch has nothing to catch in the model, and the map and its layers become booleans.
- Numbers are exact reals, not IEEE doubles, so NaN arithmetic is not modelled; only the missing channel of a malformed colour stands for NaN. For the particle tables and the colour factors used, the double results agree with the exact ones.
- WaterControl.Channels: a malformed colour yields a missing channel, which is rendered as "NaN" as the source renders it; only the contracts are limited: those of `AdjustColorBrightness` and `DesaturateColor` speak only of `#rrggbb` inputs.
- `parseInt` is modelled only for the strings this model feeds it. Leading whitespace, a '+' or '-' sign, and '0x' prefixes are not modelled (parseInt("-f", 16) is −15, while `ParseHex` fails on it).
- RestrictedAreas.FetchRestrictedAreas: `new Set` deduplicates by object identity; the model deduplicates by value. The mock records have distinct ids, so the two agree for the mock fetchers.
- `Date.now`, the current month and the weekday are parameters. One `now` stands for all the `Date.now()` calls of a single call, and dates are local day numbers rather than time zones.
- PoiManager.NearbyPois: the contract states a sorted permutation, not stability. The model's insertion sort is stable, as `Array.prototype.sort` is.
- campingSpotsApi.ts only concatenates fixed mock records. SkyController.ts and VegetationController.ts are map-styling wrappers. POITypes.ts holds type declarations only and gives the shape of the POI record.

# castro-park-discover: the place-record pipeline in Dafny

This project models the logic behind the Castro's Park Hotel guide to
Goiânia: the scripts that turn provider data (Google Maps scrapes, TripAdvisor,
local-business and open-map exports, Apify datasets, the Google Places API)
into canonical place records, the store-merge and dedupe rules for those
records, the enrichment and discovery passes over `places.json`, the
subcategory derivation, the curation layer, and the front-end list logic
(search, filters, the `byBest` order, top-12 sections, the photo gallery and
the Google Maps links).

Each source file has its own module:

| module | source |
|---|---|
| `IngestGoogleMaps`, `GoogleMapsItem` | `scripts/ingest-googlemaps.js` (the item readers are shared with `ingest-complete.js` and `ingest-simple.js`) |
| `IngestMassive` | `scripts/ingest-massive.js` |
| `IngestComplete`, `GoogleMapsInsertOnly` | `scripts/ingest-complete.js` (the insert-only loop is shared with `ingest-simple.js`) |
| `IngestSimple` | `scripts/ingest-simple.js` |
| `IngestTripAdvisor`, `TripAdvisorItem` | `scripts/ingest-tripadvisor.js` (the item readers are shared with `ingest-merged.js`) |
| `IngestLocalBusiness` | `scripts/ingest-localbusiness.js` |
| `IngestOpenMap` | `scripts/ingest-openmap.js` |
| `IngestMerged` | `scripts/ingest-merged.js` |
| `EnrichGooglePlaces` | `scripts/enrich-google-places.js` |
| `ExpandGooglePlaces` | `scripts/expand-google-places.js` |
| `EnrichApifyMaps` | `scripts/enrich-apify-maps-extractor.js` |
| `DeriveSubcategories` | `scripts/derive-subcategories.js` |
| `Curation` | `src/lib/curation.ts` |
| `IndexPage` | `src/pages/Index.tsx` |
| `PlaceGallery` | `src/components/PlaceGallery.tsx` |
| `Maps` | `src/lib/maps.ts` |

The shared modules are:

- `Places`: the place record of `src/types/place.ts`, the override patch, and `Env`. `Env` holds what the scripts read from outside: the clock, the distance from the hotel, and number-to-text.
- `Store`: the SQLite `places` table, as a list of rows in insertion order. The class `Store.PlaceTable` holds that list and inserts and updates rows in place.
- `KeyedDedupe`: the JavaScript `Map` loops that keep one record per key.
- `CommonRules`: functions copied verbatim into several scripts, such as `moneyText`, `pickLimit` and `mapCategoryFromTypes`.
- `Rules`: ordered keyword tables, where the first matching rule wins or all matches are collected.
- `Js`: JavaScript truthiness, `||` and `??`, and `Number(...)`.
- `Text`: substring search, trimming, case mapping, accent stripping, split and join.
- `Uri`: `encodeURIComponent`.
- `Collections`: `Set` insertion order and `slice`.
- `Sorting`: a stable sort by a key triple.
- `Wrappers`: `Option`.

Code that changes state step by step is modelled as methods with loops,
proved against functions that state its result:

- `DedupeUrls` and `BuildGallery`;
- the retry loops `DetailsWithRetry` and `TextSearchWithRetry`;
- the ingestion loops `IngestItems`;
- the enrichment loop `Enrich` and the discovery loops `ScanResults`, `SearchQuery` and `Discover`;
- `DeriveAll` and `SyncItems`.

The Apify merge loop also has a class, `EnrichApifyMaps.Catalogue`, whose
fields are the places, the `byId` index and the counters.

The network, the database engine, the clock and floating-point
arithmetic enter as parameters:

- provider responses are functions from the call number to the answer;
- `Env` gives the time and the distance;
- `Curation.Numerics` stands for `Math.log10` and `toFixed`.

The SQLite table is a sequence of rows, which the operations search, append to and update.

## Model

| member | source | states |
|---|---|---|
| Curation.CategorySentence | castro-park-discover/src/lib/curation.ts:17-40 | the fallback sentence is never empty and is one of the seven fixed sentences |
| Curation.FallbackIgnoresCase | castro-park-discover/src/lib/curation.ts:18 | the sentence depends only on the lower-cased category: categories equal up to case get the same sentence |
| Curation.FallbackByCategory | castro-park-discover/src/lib/curation.ts:17-40 | the generic sentence is given exactly to categories outside restaurants, nightlife, cafes, nature, culture, shopping, and each of the six has a sentence no other category gets |
| Curation.SentenceTellsCategory | castro-park-discover/src/lib/curation.ts:20-39 | on a lower-cased category: generic sentence iff not one of the six; equal sentences for one of the six mean equal categories |
| Curation.SentenceLength | castro-park-discover/src/lib/curation.ts:20-39 | each of the seven branches yields a sentence of its own length |
| Curation.FallbackTextsDistinct | castro-park-discover/src/lib/curation.ts:21-39 | the seven sentences are pairwise different |
| Curation.ScoreClampsNegatives | castro-park-discover/src/lib/curation.ts:43-44 | a negative rating or review count scores exactly like zero |
| Curation.ScoreDistance | castro-park-discover/src/lib/curation.ts:45-49 | a missing distance scores like 8 km; any distance of 20 km or more scores like 20 km |
| Curation.ScoreMonotone | castro-park-discover/src/lib/curation.ts:42-52 | with monotone log10 and rounding, a higher rating, more reviews or a shorter distance never lowers the score |
| Curation.Description | castro-park-discover/src/lib/curation.ts:60 | the description is never empty: the trimmed override-or-own text when that is not blank, else the category's fallback sentence |
| Curation.Normalized | castro-park-discover/src/lib/curation.ts:57-74 | the first pass keeps length and order; each place is curated with its own override, keeping id, sourceId and rating |
| Curation.Top | castro-park-discover/src/lib/curation.ts:82-85 | the automatic list holds at most 30 places |
| Curation.IdsOf | castro-park-discover/src/lib/curation.ts:86 | the ids added to the set are the ids of the top places, one per place, in order |
| Curation.Flag | castro-park-discover/src/lib/curation.ts:89-92 | the second pass keeps every place and changes only hotelRecommended, set from id or truthy sourceId membership |
| Curation.ApplyCuration | castro-park-discover/src/lib/curation.ts:54-93 | the result has one place per input place |
| Curation.CurationKeepsPlaces | castro-park-discover/src/lib/curation.ts:62-71 | apart from name, description, tags, highlights, notes and the two hotel fields, every output place equals its input place |
| Curation.CurationOverrides | castro-park-discover/src/lib/curation.ts:58-68 | the override is the entry under the id, else under the sourceId, none iff neither is a key; name and notes take a truthy override, tags and highlights only a non-empty one |
| Curation.CurationDescription | castro-park-discover/src/lib/curation.ts:60 | every output place has a non-empty description, the one chosen from the override, the place and the fallback |
| Curation.BlankOverrideHidesDescription | castro-park-discover/src/lib/curation.ts:60 | an override description of white space only wins over the place's own text and then trims to nothing, so the fallback sentence is used |
| Curation.CurationScore | castro-park-discover/src/lib/curation.ts:69 | the hotel score is the score of the input place plus the override priority, 0 without an override |
| Curation.ManualRecommendation | castro-park-discover/src/lib/curation.ts:77-80 | with curated ids, a place is recommended iff its id or truthy sourceId is one of them, whatever the scores |
| Curation.ManualIds | castro-park-discover/src/lib/curation.ts:77 | the curated ids are exactly the non-empty recommendedIds of the document; none without a document |
| Curation.TopIsBest | castro-park-discover/src/lib/curation.ts:82-85 | an eligible place left out of the top list scores no higher than any place in it |
| Curation.TopTakesAllFew | castro-park-discover/src/lib/curation.ts:82-85 | with at most 30 places rated 4.2 or more, all of them make the list |
| Curation.AutomaticRecommendation | castro-park-discover/src/lib/curation.ts:81-92 | without curated ids the set is the ids of the top list, at most 30, and a place is recommended iff its id or sourceId is in it |
| Curation.TopIdsEligible | castro-park-discover/src/lib/curation.ts:82-86 | every id in the top list is the id of a place rated 4.2 or more that made the list |
| Curation.SameIdsEligible | castro-park-discover/src/lib/curation.ts:57-86 | a pass that keeps ids and ratings keeps that property for the input places |
| Curation.AutomaticIdsEligible | castro-park-discover/src/lib/curation.ts:54-86 | each automatically recommended id is that of an input place rated 4.2 or more |
| Maps.NameQuery | castro-park-discover/src/lib/maps.ts:21-24 | the name-and-address query is never empty: both joined by a space, either one alone, or "Goiânia" |
| Maps.SourceUrlWins | castro-park-discover/src/lib/maps.ts:11 | a truthy sourceUrl is returned verbatim, and the directions link ignores it |
| Maps.PlaceQueryFacts | castro-park-discover/src/lib/maps.ts:14-24 | the query is "lat,lng" when both coordinates are finite, else the name query; never empty |
| Maps.LinksAgree | castro-park-discover/src/lib/maps.ts:10-41 | the directions link always starts from the hotel's coordinates, and without a sourceUrl both links point to the same query |
| PlaceGallery.DedupeUrls | castro-park-discover/src/components/PlaceGallery.tsx:11-21 | the loop with its seen set computes the recursive definition of the pushed URLs |
| PlaceGallery.DedupeFacts | castro-park-discover/src/components/PlaceGallery.tsx:11-21 | the output has no repeats and holds exactly the truthy input URLs |
| PlaceGallery.DedupePrefix | castro-park-discover/src/components/PlaceGallery.tsx:14-19 | reading more URLs only appends: the output for a prefix is a prefix of the output |
| PlaceGallery.FirstIndex | castro-park-discover/src/components/PlaceGallery.tsx:14-16 | the first index holding a URL: it holds it and no earlier index does |
| PlaceGallery.FirstIndexInPrefix | castro-park-discover/src/components/PlaceGallery.tsx:14-16 | a first appearance inside a prefix is the first appearance in the whole list |
| PlaceGallery.DedupeFirstOrder | castro-park-discover/src/components/PlaceGallery.tsx:11-21 | output order is the order of first appearances in the input |
| PlaceGallery.GalleryUrls | castro-park-discover/src/components/PlaceGallery.tsx:31 | the list starts with the main image and then holds exactly the gallery URLs |
| PlaceGallery.MainImageFirst | castro-park-discover/src/components/PlaceGallery.tsx:30-33 | a truthy main image is the first image |
| PlaceGallery.ImagesFacts | castro-park-discover/src/components/PlaceGallery.tsx:30-33 | the images are the truthy main image and gallery URLs, each exactly once |
| PlaceGallery.PreviewFacts | castro-park-discover/src/components/PlaceGallery.tsx:35-70 | the preview is the first five images (all when fewer), and preview plus remaining count is the number of images |
| PlaceGallery.RenderFacts | castro-park-discover/src/components/PlaceGallery.tsx:29-60 | nothing is rendered iff there is no truthy image or gallery URL; otherwise the view holds the deduplicated images |
| IndexPage.BestOrder | castro-park-discover/src/pages/Index.tsx:12-20 | in a list sorted by byBest an earlier place has a rating at least as high, on equal ratings at least as many reviews, on both equal a distance no greater (missing = 999) |
| IndexPage.Search | castro-park-discover/src/pages/Index.tsx:54-64 | an empty trimmed query finds nothing; otherwise a place is found iff its lower-cased haystack contains the query; results are a sub-multiset of the places |
| IndexPage.CategoryResults | castro-park-discover/src/pages/Index.tsx:66-69 | "all" gives no results; any other category gives exactly the places of that category, a sub-multiset of the places |
| IndexPage.LowerContainsPart | castro-park-discover/src/pages/Index.tsx:58-62 | a query inside a lower-cased part of a text is inside the lower-cased text |
| IndexPage.LowerJoinContains | castro-park-discover/src/pages/Index.tsx:58-62 | a query inside one lower-cased field is inside the lower-cased space-joined fields |
| IndexPage.FieldInHaystack | castro-park-discover/src/pages/Index.tsx:58-62 | a non-empty query inside any lower-cased search field is inside the haystack |
| IndexPage.SearchFindsField | castro-park-discover/src/pages/Index.tsx:37-64 | a place is found whenever one of its name, address, description or tags contains the normalized query, whatever the case |
| IndexPage.ApplyFilters | castro-park-discover/src/pages/Index.tsx:71-102 | the result is sorted by the chosen order and is a permutation of the filtered list |
| IndexPage.OpenStageFilters | castro-park-discover/src/pages/Index.tsx:74-76 | the open-now stage is a filter by its test, or keeps everything when off |
| IndexPage.DistanceStageFilters | castro-park-discover/src/pages/Index.tsx:78-80 | the distance stage is a filter by its test, or keeps everything when off |
| IndexPage.PriceStageFilters | castro-park-discover/src/pages/Index.tsx:82-84 | the price stage is a filter by its test (unknown level 0 never passes), or keeps everything when off |
| IndexPage.RatingStageFilters | castro-park-discover/src/pages/Index.tsx:86-88 | the rating stage is a filter by its test, or keeps everything when off |
| IndexPage.FilteredIsOneFilter | castro-park-discover/src/pages/Index.tsx:72-88 | the four stages in a row are one order-keeping filter by the conjunction of the active tests |
| IndexPage.ApplyFiltersExact | castro-park-discover/src/pages/Index.tsx:71-102 | applyFilters returns exactly the places of the list passing every active filter, as often as in the list, sorted by the chosen order |
| IndexPage.InitialFiltersKeepAll | castro-park-discover/src/pages/Index.tsx:29-102 | with the initial filters the list is only reordered by byBest |
| IndexPage.CuratedTopFacts | castro-park-discover/src/pages/Index.tsx:107-114 | curatedTop holds at most 12 recommended places in descending hotel score; a recommended place left out scores no higher than any shown |
| IndexPage.NearHotelFacts | castro-park-discover/src/pages/Index.tsx:116-123 | nearHotel holds at most 12 places with a known distance, nearest first; one left out is no nearer than any shown |
| IndexPage.SectionFacts | castro-park-discover/src/pages/Index.tsx:125-147 | a section holds at most 12 places of its categories in byBest order, and all of them when there are at most 12 |
| IndexPage.AttractionsAndParks | castro-park-discover/src/pages/Index.tsx:140-147 | the joint section holds only attractions and nature places |
| IndexPage.Categories | castro-park-discover/src/pages/Index.tsx:48 | one category per place, in order |
| IndexPage.TotalCategories | castro-park-discover/src/pages/Index.tsx:47-50 | the category count is at most the number of places |
| IndexPage.TotalCategoriesCounts | castro-park-discover/src/pages/Index.tsx:47-50 | the counted set holds exactly the non-empty categories of some place |
| IngestGoogleMaps.ParsePriceLevel | castro-park-discover/scripts/ingest-googlemaps.js:375-386 | no price reads 0; a number is itself; a text holding EXPENSIVE reads 4, else one holding MODERATE reads 2, else one holding FREE reads 0; otherwise a text with `$` signs is their count and any other text is its number, 0 when not a number |
| IngestGoogleMaps.UpperKeepsDollars | castro-park-discover/scripts/ingest-googlemaps.js:377-383 | upper-casing the price text keeps its number of `$` signs |
| IngestGoogleMaps.InexpensiveReadsAsFour | castro-park-discover/scripts/ingest-googlemaps.js:378-380 | any text holding INEXPENSIVE is priced 4: the INEXPENSIVE test is dead code |
| IngestGoogleMaps.DollarsCount | castro-park-discover/scripts/ingest-googlemaps.js:382-383 | a text with `$` signs and no price word is its count of `$` signs |
| GoogleMapsItem.ImageEntryUrls | castro-park-discover/scripts/ingest-complete.js:186-190 | the URLs of the first five `images` entries, in order: a text entry is its own URL, an object its `url` |
| IngestGoogleMaps.NormalizePlace | castro-park-discover/scripts/ingest-googlemaps.js:205-260 | the id is the URI-encoded, never empty source id; every column follows its fallback chain: name, review count, price level and text, description, address, phone, website, source URL, menu; the open status is the hours when present, else the `true` flag, else none; tags are a prefix of at most ten of the category fields; gallery is the first five imageUrls then the first five image entries; image prefers imageUrl, then the first gallery URL |
| IngestGoogleMaps.TagsKeepRepeats | castro-park-discover/scripts/ingest-googlemaps.js:227-232 | a category name repeated in the categories is stored twice: tags are not deduplicated |
| IngestGoogleMaps.SaveAsWritten | castro-park-discover/scripts/ingest-googlemaps.js:262-304 | an unmatched record is appended and reported new; a match is reported updated exactly when the record is rated at least as well or has more reviews, and then the update is addressed to the incoming id |
| IngestGoogleMaps.UpdateByIdMissesSourceMatch | castro-park-discover/scripts/ingest-googlemaps.js:263-283 | a row found only through its source id is reported updated and left unchanged |
| IngestGoogleMaps.LostUpdateExample | castro-park-discover/scripts/ingest-googlemaps.js:263-283 | a stored row with id and source id `a%20b` and an incoming record with source id `a%20b` lose the incoming better rating |
| IngestGoogleMaps.Save | castro-park-discover/scripts/ingest-googlemaps.js:262-304 | the corrected save: the update goes to the row the lookup found, which takes every incoming column but its keys |
| IngestGoogleMaps.SaveKeepsTable | castro-park-discover/scripts/ingest-googlemaps.js:262-304 | saving keeps every id in place and the primary key unique, and grows the table by one row exactly when the outcome is new |
| IngestGoogleMaps.SaveTwiceFindsIt | castro-park-discover/scripts/ingest-googlemaps.js:262-304 | the second save of the same record never reports it new |
| IngestGoogleMaps.SaveKeepsIdsAndSources | castro-park-discover/scripts/ingest-googlemaps.js:266-283 | the matched row keeps its id and source id |
| IngestGoogleMaps.SavePlaceToDb | castro-park-discover/scripts/ingest-googlemaps.js:262-304 | the statements against the table leave it as the corrected save describes and keep the primary key |
| IngestGoogleMaps.IngestStep | castro-park-discover/scripts/ingest-googlemaps.js:164-178 | an untitled item changes nothing; any other is counted once, and the new-row counter grows with the table |
| IngestGoogleMaps.Ingest | castro-park-discover/scripts/ingest-googlemaps.js:161-179 | after the loop the table grows by the new-row count, new plus updated never exceeds processed, and processed is the number of titled items |
| IngestGoogleMaps.IngestSnoc | castro-park-discover/scripts/ingest-googlemaps.js:164-179 | each further item is one more step of the loop |
| IngestGoogleMaps.CountUntitled | castro-park-discover/scripts/ingest-googlemaps.js:165 | the skipped items are at most all items |
| IngestGoogleMaps.CountUntitledSnoc | castro-park-discover/scripts/ingest-googlemaps.js:165 | one more item adds one skip exactly when it has no title |
| IngestGoogleMaps.IngestItem | castro-park-discover/scripts/ingest-googlemaps.js:164-178 | the loop body leaves table and counters as one step describes |
| IngestGoogleMaps.IngestItems | castro-park-discover/scripts/ingest-googlemaps.js:161-179 | the loop leaves table and counters as the whole run over the items describes |
| IngestGoogleMaps.SaveOrThrow | castro-park-discover/scripts/ingest-googlemaps.js:262-304 | the save throws exactly when it would insert or update a record whose open status is the hours array or the `true` flag, which the statement driver cannot bind; otherwise it is the save as written |
| IngestGoogleMaps.IngestAsWritten | castro-park-discover/scripts/ingest-googlemaps.js:161-186 | the item loop as written stops at the first throw, the query's `catch` taking over: the table never shrinks, and at most the titled items are counted |
| IngestGoogleMaps.HoursEndQuery | castro-park-discover/scripts/ingest-googlemaps.js:254-299 | a titled item with hours or open now, whose record would be written, ends its query with the table and counters as they were |
| IngestGoogleMaps.HoursEndQueryExample | castro-park-discover/scripts/ingest-googlemaps.js:161-186 | on an empty table, a first item with hours loses both items of the query as written, while the corrected loop counts both |
| IngestGoogleMaps.ExportRows | castro-park-discover/scripts/ingest-googlemaps.js:309-313 | exactly the rows with both coordinates, best rated first, more reviews first among equal ratings |
| IngestGoogleMaps.EnvLineSides | castro-park-discover/scripts/ingest-googlemaps.js:426-427 | the key is the text before the first `=`, the value the trimmed rest with later `=` kept |
| IngestGoogleMaps.EnvLines | castro-park-discover/scripts/ingest-googlemaps.js:421-424 | no kept line is blank or a `#` comment |
| IngestGoogleMaps.KeptLines | castro-park-discover/scripts/ingest-googlemaps.js:424 | the kept lines are exactly the non-blank, non-comment ones |
| IngestGoogleMaps.KeysOf | castro-park-discover/scripts/ingest-googlemaps.js:426 | the key set is exactly the keys the lines name |
| IngestGoogleMaps.SetIfUnset | castro-park-discover/scripts/ingest-googlemaps.js:428-430 | an unset variable takes the value; no other variable changes |
| IngestGoogleMaps.ApplyEnv | castro-park-discover/scripts/ingest-googlemaps.js:425-431 | a variable already set to a non-empty value keeps it; only named variables appear |
| IngestGoogleMaps.LoadEnv | castro-park-discover/scripts/ingest-googlemaps.js:417-435 | the environment keeps every non-empty variable, and gains only variables named by a kept line |
| IngestGoogleMaps.ApplyEnvSetsFirst | castro-park-discover/scripts/ingest-googlemaps.js:425-431 | an unset variable takes the non-empty value of the first line that names it |
| GoogleMapsItem.TimestampId | castro-park-discover/scripts/ingest-googlemaps.js:206 | the fallback id starts with `place-` |
| GoogleMapsItem.PlaceIdOf | castro-park-discover/scripts/ingest-googlemaps.js:206 | the source id is the place id, else the URL, else the title, else the timestamp id; never empty |
| GoogleMapsItem.TitledItemsHaveStableIds | castro-park-discover/scripts/ingest-googlemaps.js:165-206 | an item that passes the title guard has an id independent of the clock, taken from its own fields |
| GoogleMapsItem.FirstImageUrls | castro-park-discover/scripts/ingest-googlemaps.js:220-222 | at most the first five imageUrls, none when it is not an array |
| GoogleMapsItem.MainImage | castro-park-discover/scripts/ingest-googlemaps.js:244 | imageUrl when set, else the first gallery URL, else none |
| GoogleMapsItem.HintCategory | castro-park-discover/scripts/ingest-googlemaps.js:238 | the query's category, or `attractions` when it has none |
| GoogleMapsItem.SourceUrl | castro-park-discover/scripts/ingest-googlemaps.js:253 | the item's URL when set, else the place-id link |
| Store.Tally | castro-park-discover/scripts/ingest-googlemaps.js:170-178 | one more processed item; one more new or updated row according to the outcome |
| Store.FindId | castro-park-discover/scripts/ingest-complete.js:263 | finds a row with the id exactly when one exists |
| Store.FindIdOrSource | castro-park-discover/scripts/ingest-googlemaps.js:263 | finds the first row whose id or source id matches, exactly when one exists |
| Store.Assign | castro-park-discover/scripts/ingest-googlemaps.js:266-283 | the updated row keeps its id, source id and hours and takes every other column |
| Store.UpdateWhereId | castro-park-discover/scripts/ingest-googlemaps.js:267-283 | every row with the id is assigned, every other row is unchanged |
| Store.UpdateKeepsIds | castro-park-discover/scripts/ingest-googlemaps.js:267-283 | an update moves no id and keeps the primary key |
| Store.UpdateMissingId | castro-park-discover/scripts/ingest-googlemaps.js:275 | an update whose id no row has changes nothing |
| Store.AppendKeepsUnique | castro-park-discover/scripts/ingest-googlemaps.js:288-302 | inserting an unseen id keeps the primary key |
| Store.InsertIfAbsent | castro-park-discover/scripts/ingest-complete.js:262-282 | an unseen id is appended and reported new; a stored id is left alone and reported existing |
| Store.SelectOrdered | castro-park-discover/scripts/ingest-googlemaps.js:309-313 | exactly the kept rows, none invented, by rating then review count descending |
| Store.RatingOrder | castro-park-discover/scripts/ingest-googlemaps.js:312 | the comparator key orders rows by rating, then review count, descending |
| Store.PlaceTable.SelectById | castro-park-discover/scripts/ingest-complete.js:263 | a row with the id, exactly when one is stored |
| Store.PlaceTable.Insert | castro-park-discover/scripts/ingest-googlemaps.js:288-302 | the row is appended and the primary key kept |
| Store.PlaceTable.SaveIfAbsent | castro-park-discover/scripts/ingest-complete.js:262-282 | the insert-only save, keeping the primary key |
| Store.PlaceTable.Update | castro-park-discover/scripts/ingest-googlemaps.js:267-283 | the table after the update statement, primary key kept |
| GoogleMapsInsertOnly.CountSkipped | castro-park-discover/scripts/ingest-complete.js:134 | the skipped items are at most all items |
| GoogleMapsInsertOnly.CountSkippedSnoc | castro-park-discover/scripts/ingest-complete.js:134 | one more item adds one skip exactly when it has neither title nor name |
| GoogleMapsInsertOnly.IngestStep | castro-park-discover/scripts/ingest-complete.js:134-143 | a skipped item changes nothing; any other is counted once, never updates a row, and stored rows stay in front |
| GoogleMapsInsertOnly.Ingest | castro-park-discover/scripts/ingest-complete.js:133-144 | after the loop the table grows by the new-row count, nothing is updated, and processed is the number of items with a title or name |
| GoogleMapsInsertOnly.IngestKeepsStoredRows | castro-park-discover/scripts/ingest-complete.js:262-282 | insert-only: every row stored before the run is still there, unchanged and in place |
| GoogleMapsInsertOnly.IngestSnoc | castro-park-discover/scripts/ingest-complete.js:133-144 | each further item is one more step of the loop |
| GoogleMapsInsertOnly.IngestStoresEveryItem | castro-park-discover/scripts/ingest-complete.js:133-144 | after the loop every item with a title or name has a row under its id |
| GoogleMapsInsertOnly.ExportRows | castro-park-discover/scripts/ingest-complete.js:287-291 | exactly the rows with a latitude, best rated first, more reviews first among equal ratings |
| IngestComplete.ReviewCount | castro-park-discover/scripts/ingest-complete.js:177 | the review count falls back from reviewsCount to reviews to the score |
| IngestComplete.ScoreStandsInForReviews | castro-park-discover/scripts/ingest-complete.js:176-177 | with no review count, the score is written both as rating and as number of reviews |
| IngestComplete.GalleryFacts | castro-park-discover/scripts/ingest-complete.js:180-199 | the imageUrls stay in front; each offered truthy URL not yet present is added once; at most ten URLs; imageUrl is used only when both sources are empty |
| IngestComplete.BuildGallery | castro-park-discover/scripts/ingest-complete.js:180-199 | the gallery statements build the gallery described above |
| IngestComplete.AddTruthyNew | castro-park-discover/scripts/ingest-complete.js:188-193 | the loop appends each truthy URL not yet in the gallery |
| IngestComplete.GalleryStep | castro-park-discover/scripts/ingest-complete.js:189-192 | an empty or already present URL adds nothing; another is appended |
| IngestComplete.TagCandidates | castro-park-discover/scripts/ingest-complete.js:201-209 | no empty tag is offered to the set |
| IngestComplete.Tags | castro-park-discover/scripts/ingest-complete.js:201-210 | at most five distinct, non-empty tags in first-seen order; all candidates when there are no more than five distinct ones, exactly five otherwise |
| IngestComplete.CategoryNameFirst | castro-park-discover/scripts/ingest-complete.js:202 | the category name leads the tags whenever there is one |
| IngestComplete.PriceLevel | castro-park-discover/scripts/ingest-complete.js:213-220 | no price, or a numeric one, reads 0; a text holding EXPENSIVE reads 4, else one holding MODERATE reads 2; never negative |
| IngestComplete.InexpensiveReadsAsFour | castro-park-discover/scripts/ingest-complete.js:216-218 | a text holding INEXPENSIVE is priced 4: the INEXPENSIVE test is dead code |
| IngestComplete.DollarsCount | castro-park-discover/scripts/ingest-complete.js:216-219 | a text with neither word is priced by its `$` signs |
| IngestComplete.Description | castro-park-discover/scripts/ingest-complete.js:223-226 | description, else about, else the first two tags and the city; empty exactly when all three are missing |
| IngestComplete.Hours | castro-park-discover/scripts/ingest-complete.js:229 | openingHours, else hours, else none; an empty array counts as present |
| IngestComplete.OpenStatusOf | castro-park-discover/scripts/ingest-complete.js:232-234 | `true` reads open, `false` and `null` read closed; only an absent flag falls through to "Ver horários" when there are hours, else no status |
| IngestComplete.Image | castro-park-discover/scripts/ingest-complete.js:246 | imageUrl, else a truthy first gallery URL, else none; never an empty URL |
| IngestComplete.AnyPhotoGivesImage | castro-park-discover/scripts/ingest-complete.js:180-199 | a place with any photo URL gets a main image |
| IngestComplete.WithGallery | castro-park-discover/scripts/ingest-complete.js:238-260 | the record keeps the gallery it is given and its matching main image |
| IngestComplete.NormalizePlace | castro-park-discover/scripts/ingest-complete.js:166-260 | the id is the URI-encoded, never empty source id; the name is title, else name, else "Sem nome"; phone is `phone`, else `phoneNumber`; website is `website`, else `url`; menu is `menu`; every other column is the rule above; the query is not written |
| IngestComplete.Normalize | castro-park-discover/scripts/ingest-complete.js:166-260 | the statements of `normalizePlace` compute the record described above |
| IngestComplete.IngestItem | castro-park-discover/scripts/ingest-complete.js:134-143 | the loop body leaves table and counters as one insert-only step describes |
| IngestComplete.IngestItems | castro-park-discover/scripts/ingest-complete.js:133-144 | the loop leaves table and counters as the whole insert-only run describes |
| IngestSimple.NormalizePlace | castro-park-discover/scripts/ingest-simple.js:139-183 | the id is the URI-encoded, never empty source id; price level is 0; phone and website follow their fallbacks; tags are a prefix of at most ten category fields; gallery is the first five imageUrls; no status, hours or menu |
| IngestSimple.TagsKeepCategories | castro-park-discover/scripts/ingest-simple.js:157-161 | the provider's categories are kept as given, empty entries and repeats included |
| IngestSimple.IngestItem | castro-park-discover/scripts/ingest-simple.js:107-116 | the loop body leaves table and counters as one insert-only step describes |
| IngestSimple.IngestItems | castro-park-discover/scripts/ingest-simple.js:106-117 | the loop leaves table and counters as the whole insert-only run describes |
| IngestSimple.SaveInsertsOnly | castro-park-discover/scripts/ingest-simple.js:185-204 | a record whose id is stored leaves the table unchanged and is not counted new; an unseen id is appended and counted; nothing is ever counted updated |
| IngestMassive.MapCategory | castro-park-discover/scripts/ingest-massive.js:324-348 | a search term that matches one of the term tests decides the category, before type or name are looked at |
| IngestMassive.MapCategoryRange | castro-park-discover/scripts/ingest-massive.js:324-348 | every item lands in one of eight categories, `hotels` among them |
| IngestMassive.QueryCategoryRange | castro-park-discover/scripts/ingest-massive.js:330-335 | the search-term tests only yield the six themed categories |
| IngestMassive.ItemCategoryRange | castro-park-discover/scripts/ingest-massive.js:338-347 | the type and name tests only yield categories from the same eight |
| IngestMassive.MapCategoryHotels | castro-park-discover/scripts/ingest-massive.js:324-348 | an item is filed under hotels exactly when no term test matched, neither type nor name reads as a restaurant, and the type reads as a hotel |
| IngestMassive.ItemCategoryHotels | castro-park-discover/scripts/ingest-massive.js:338-347 | the type and name tests yield hotels exactly when the type reads as a hotel and neither reads as a restaurant |
| IngestMassive.RestaurantQueryWins | castro-park-discover/scripts/ingest-massive.js:330 | a term with `restaurante` files every result under restaurants |
| IngestMassive.RestaurantTypeBeatsName | castro-park-discover/scripts/ingest-massive.js:338 | without a telling term, a restaurant type wins over the name tables |
| IngestMassive.RawId | castro-park-discover/scripts/ingest-massive.js:161 | the raw id is never empty |
| IngestMassive.IdIsEncodedRawId | castro-park-discover/scripts/ingest-massive.js:161-162 | the id is the URI encoding of the raw id: `encodeId`'s own fallback is never taken, and the timestamp id is left as it is by encoding |
| IngestMassive.NormalizePlace | castro-park-discover/scripts/ingest-massive.js:159-204 | id and source id are the encoded raw id; the name is never empty; the category is the term-first mapping; gallery and highlights are the item's (at most eight and five); price text, phone, website, email, source URL, menu and open status follow the item; tags distinct and at most ten |
| IngestMassive.Save | castro-park-discover/scripts/ingest-massive.js:206-268 | looked up by id only: an unseen id is appended; a stored row is overwritten, keys kept, exactly when the record is better rated or the row lacks a description or an image; the primary key holds |
| IngestMassive.MissingDescriptionIsRefreshed | castro-park-discover/scripts/ingest-massive.js:210 | a stored row without a description is always refreshed |
| IngestMassive.EqualRatingKeepsCompleteRow | castro-park-discover/scripts/ingest-massive.js:210 | a complete row is kept against an equal rating: the comparison is strict |
| IngestMassive.SavePlaceToDb | castro-park-discover/scripts/ingest-massive.js:206-268 | the statements against the table leave it as the save describes |
| IngestMassive.IngestStep | castro-park-discover/scripts/ingest-massive.js:133-140 | every item is counted once; at most one of new or updated grows, and new grows with the table |
| IngestMassive.Ingest | castro-park-discover/scripts/ingest-massive.js:133-140 | after the loop every item is counted, the table grows by the new count, and new plus updated never exceeds the items |
| IngestMassive.IngestSnoc | castro-park-discover/scripts/ingest-massive.js:133-140 | each further item is one more step of the loop |
| IngestMassive.IngestItem | castro-park-discover/scripts/ingest-massive.js:134-139 | the loop body leaves table and counters as one step describes |
| IngestMassive.IngestItems | castro-park-discover/scripts/ingest-massive.js:133-140 | the loop leaves table and counters as the whole run describes |
| IngestMassive.ExportRows | castro-park-discover/scripts/ingest-massive.js:273-276 | every row, best rated first, more reviews first among equal ratings |
| IngestMassive.TagsOfItem | castro-park-discover/scripts/ingest-massive.js:350-358 | the tags are the distinct non-empty subcategories, cuisines, features, type and search term in that order, at most ten; the search term is among them whenever nothing is cut |
| IngestMassive.PriceLevelOfItem | castro-park-discover/scripts/ingest-massive.js:360-366 | a falsy price reads 0, a text with `$` signs reads their count (at least 1), any other text reads its number (0 when not a number), a number reads as itself |
| TripAdvisorItem.WebOrPlainUrl | castro-park-discover/scripts/ingest-tripadvisor.js:93 | the source URL is webUrl when set, else url, and missing exactly when both are; `ingest-merged.js` and `ingest-massive.js` use the same rule |
| TripAdvisorItem.EncodeId | castro-park-discover/scripts/ingest-tripadvisor.js:196-200 | a falsy raw id gives the fallback; any other its URI encoding, never empty |
| TripAdvisorItem.ImageOrFirstPhoto | castro-park-discover/scripts/ingest-tripadvisor.js:99-101 | the image field, else the first photo's URL, else none; `ingest-merged.js` and `ingest-massive.js` use the same rule |
| TripAdvisorItem.TaGallery | castro-park-discover/scripts/ingest-tripadvisor.js:108 | present exactly when photos is an array; then the first eight, or all, of the non-empty photo URLs in order |
| TripAdvisorItem.NumberOrZero | castro-park-discover/scripts/ingest-tripadvisor.js:115-116 | a missing number reads 0, a present one is itself |
| TripAdvisorItem.TaDescription | castro-park-discover/scripts/ingest-tripadvisor.js:104 | description, else rankingString, else a default; never empty |
| TripAdvisorItem.TaAddress | castro-park-discover/scripts/ingest-tripadvisor.js:121 | address, else locationString, else a default; never empty |
| TripAdvisorItem.TaPriceText | castro-park-discover/scripts/ingest-tripadvisor.js:118 | the price level's text when truthy, else the price range |
| TripAdvisorItem.TaHighlights | castro-park-discover/scripts/ingest-tripadvisor.js:135 | present exactly when reviewTags is; at most its first five texts |
| TripAdvisorItem.TagCandidates | castro-park-discover/scripts/ingest-tripadvisor.js:165-171 | no empty tag is offered to the set |
| TripAdvisorItem.BuildTags | castro-park-discover/scripts/ingest-tripadvisor.js:164-172 | distinct, non-empty tags in first-seen order, at most the cap; all of them when there are no more distinct ones than the cap, exactly the cap otherwise |
| TripAdvisorItem.QueryIsTag | castro-park-discover/scripts/ingest-tripadvisor.js:171-172 | the search term is a tag whenever the tags are not cut |
| IngestTripAdvisor.MapCategory | castro-park-discover/scripts/ingest-tripadvisor.js:148-163 | a restaurant type gives restaurants, else a hotel type hotels, else a vacation type vacation, else the name tables, else attractions; one of seven categories |
| IngestTripAdvisor.ShoppingBeforeNature | castro-park-discover/scripts/ingest-tripadvisor.js:157-158 | a name that reads like shopping beats one that also reads like a park |
| IngestTripAdvisor.RankingId | castro-park-discover/scripts/ingest-tripadvisor.js:94 | the last-resort id is never empty |
| IngestTripAdvisor.RawId | castro-park-discover/scripts/ingest-tripadvisor.js:94 | the raw id is never empty; it is the item id when there is one, else the type and ranking id when every other field is missing |
| IngestTripAdvisor.UnknownFallbackUnused | castro-park-discover/scripts/ingest-tripadvisor.js:94-95 | `encodeId` never returns `unknown` for want of an id: the id is the encoded raw id |
| IngestTripAdvisor.NormalizeItem | castro-park-discover/scripts/ingest-tripadvisor.js:92-137 | id and source id are the encoded raw id; the name is never empty; the category is the item mapping; tags at most eight; coordinates copied, no distance |
| IngestTripAdvisor.DedupeKey | castro-park-discover/scripts/ingest-tripadvisor.js:96 | the key is never empty and is the source URL whenever there is one |
| IngestTripAdvisor.KeyedItems | castro-park-discover/scripts/ingest-tripadvisor.js:92-137 | one key and record per item, in item order |
| IngestTripAdvisor.NormalizeItems | castro-park-discover/scripts/ingest-tripadvisor.js:89-146 | one record per distinct key, the best rated, the first among equals |
| IngestTripAdvisor.SameUrlKeepsBetter | castro-park-discover/scripts/ingest-tripadvisor.js:139-142 | two items sharing a source URL end as one record, the better rated, the first on a tie |
| IngestTripAdvisor.ApplyOverrides | castro-park-discover/scripts/ingest-tripadvisor.js:299-306 | the same number of records; no overrides changes nothing; each record takes the override found by source id, then by id |
| IngestTripAdvisor.OverridesIdempotent | castro-park-discover/scripts/ingest-tripadvisor.js:299-306 | overrides that leave `id` and `sourceId` alone keep every record's ids and position, and applying them twice is applying them once |
| IngestTripAdvisor.OverrideMovingKeyExample | castro-park-discover/scripts/ingest-tripadvisor.js:299-306 | an override moving the source id to another key of the file takes effect again on a second pass, which renames the record |
| IngestTripAdvisor.ScrapedGallery | castro-park-discover/scripts/ingest-tripadvisor.js:246-276 | the scraped gallery has no repeats, at most six URLs, only stored or page images, and all of them when there are no more than six distinct |
| IngestTripAdvisor.ScrapedGalleryKeepsStored | castro-park-discover/scripts/ingest-tripadvisor.js:246 | a stored gallery without repeats and within the cap leads the scraped one |
| IngestTripAdvisor.ApplyPageDetails | castro-park-discover/scripts/ingest-tripadvisor.js:212-221 | only gallery, description and highlights change; the gallery is replaced exactly when the scraped one is longer; an empty description takes the page's; page highlights are united after the stored ones, at most six |
| IngestTripAdvisor.EnrichKeepsStored | castro-park-discover/scripts/ingest-tripadvisor.js:204-221 | a visited place keeps its stored images in front, gains only images of its page, has at most six, and keeps a description it has |
| IngestTripAdvisor.EnrichOne | castro-park-discover/scripts/ingest-tripadvisor.js:209-221 | one place keeps its id and source id |
| IngestTripAdvisor.EnrichPlaces | castro-park-discover/scripts/ingest-tripadvisor.js:202-232 | one place per place, in order, each keeping its id and source id |
| IngestTripAdvisor.EnrichPlacesFacts | castro-park-discover/scripts/ingest-tripadvisor.js:204-221 | a place with two or more images, without a source URL or whose page could not be read is left as it is; a visited one changes only in gallery, description and highlights, as its page says |
| CommonRules.DollarPriceLevel | castro-park-discover/scripts/ingest-tripadvisor.js:175-181 | falsy reads 0; a text with `$` signs is their count, at least 1; any other text is its number, 0 when not a number; a number is itself |
| Collections.TakeDistinct | castro-park-discover/scripts/ingest-tripadvisor.js:165-171 | the first `n` distinct values in first-seen order, all of them when there are no more, exactly `n` otherwise |
| CommonRules.PriceRawText | castro-park-discover/scripts/ingest-tripadvisor.js:118 | a text is written exactly when the price is truthy, and a price text as it is |
| CommonRules.ExpensiveInInexpensive | castro-park-discover/scripts/ingest-googlemaps.js:378-380 | a text holding INEXPENSIVE holds EXPENSIVE |
| CommonRules.Repeat | castro-park-discover/scripts/enrich-google-places.js:47 | a text of exactly n copies of the character |
| CommonRules.CountRepeat | castro-park-discover/scripts/enrich-google-places.js:47 | n copies of a character hold it n times |
| CommonRules.MoneyText | castro-park-discover/scripts/enrich-google-places.js:45-48 | no text for a non-positive level; otherwise one to four dollar signs |
| CommonRules.MoneyTextRoundTrip | castro-park-discover/scripts/enrich-google-places.js:45-48 | the text written for a Google price level 1 to 4 is read back as that level by the dollar-sign parser |
| CommonRules.LowerAll | castro-park-discover/scripts/ingest-localbusiness.js:167 | each category lower-cased, in order |
| CommonRules.MapCategoryList | castro-park-discover/scripts/ingest-localbusiness.js:166-175 | one of seven categories; attractions exactly when no keyword list matches the joined categories |
| CommonRules.CafeWordsPlain | castro-park-discover/scripts/ingest-localbusiness.js:168 | the cafe keywords are plain lower-case words |
| CommonRules.NightWordsPlain | castro-park-discover/scripts/ingest-localbusiness.js:169 | the nightlife keywords are plain lower-case words |
| CommonRules.FoodWordsPlain | castro-park-discover/scripts/ingest-localbusiness.js:170 | the restaurant keywords are plain lower-case words |
| CommonRules.NatureWordsPlain | castro-park-discover/scripts/ingest-localbusiness.js:171 | the nature keywords are plain lower-case words |
| CommonRules.CultureWordsPlain | castro-park-discover/scripts/ingest-localbusiness.js:172 | the culture keywords are plain lower-case words |
| CommonRules.ShoppingWordsPlain | castro-park-discover/scripts/ingest-localbusiness.js:173 | the shopping keywords are plain lower-case words |
| CommonRules.ListRulesAvoidSeparator | castro-park-discover/scripts/ingest-localbusiness.js:167-173 | no keyword can match across the ` \| ` separator |
| CommonRules.MapCategoryListSameElements | castro-park-discover/scripts/ingest-localbusiness.js:166-175 | two category lists with the same elements, in any order and with any repeats, get the same category |
| CommonRules.MapCategoryListCafeFirst | castro-park-discover/scripts/ingest-localbusiness.js:168 | a category holding a cafe word makes the place a cafe, whatever else the list holds |
| CommonRules.PickLimit | castro-park-discover/scripts/ingest-localbusiness.js:58-64 | the light limit exactly for parks, museums and shopping centres (or when both limits agree), the default otherwise |
| CommonRules.MapCategoryFromTypes | castro-park-discover/scripts/enrich-google-places.js:73-89 | undefined exactly when no test matches the joined types; otherwise one of seven categories |
| CommonRules.TypeTags | castro-park-discover/scripts/enrich-google-places.js:50-71 | distinct labels, each from a rule that matches the joined types, in table order; exactly the first eight of the distinct matching labels, or all of them when there are fewer |
| CommonRules.NightTypesPlain | castro-park-discover/scripts/enrich-google-places.js:77 | the nightlife types are plain words |
| CommonRules.FoodTypesPlain | castro-park-discover/scripts/enrich-google-places.js:79 | the restaurant types are plain words |
| CommonRules.CultureTypesPlain | castro-park-discover/scripts/enrich-google-places.js:84 | the culture types are plain words |
| CommonRules.OneWordTypesPlain | castro-park-discover/scripts/enrich-google-places.js:78-86 | the single-type tests are plain words |
| CommonRules.TypeRulesAvoidSeparator | castro-park-discover/scripts/enrich-google-places.js:74-86 | no type test can match across the `\|` separator |
| CommonRules.MapCategoryFromTypesSameElements | castro-park-discover/scripts/enrich-google-places.js:73-89 | the category read from Google types does not depend on their order or repeats |
| CommonRules.BarBeatsRestaurant | castro-park-discover/scripts/enrich-google-places.js:77-79 | a bar that also serves food is nightlife: the nightlife test comes first |
| Rules.FirstMatch | castro-park-discover/scripts/ingest-localbusiness.js:168-174 | no label exactly when no rule matches; otherwise the label of a rule that matches |
| Rules.FirstMatchIsFirst | castro-park-discover/scripts/ingest-localbusiness.js:168-174 | the first rule that matches decides |
| Rules.FirstMatchWithin | castro-park-discover/scripts/ingest-localbusiness.js:168-174 | a match only yields one of the table's labels |
| Rules.FirstMatchAvoids | castro-park-discover/scripts/ingest-localbusiness.js:168-174 | a label no rule gives is never the outcome |
| Rules.AllMatches | castro-park-discover/scripts/enrich-google-places.js:56-68 | exactly the labels of the matching rules, at most one per rule |
| Rules.AllMatchesStartsWithFirst | castro-park-discover/scripts/enrich-google-places.js:56-68 | some rule matches exactly when there are labels, and the first label is the one the cascade returns |
| Rules.NoMatchNoLabels | castro-park-discover/scripts/enrich-google-places.js:56-68 | no matching rule gives no labels |
| Rules.EmptyMatchesNothing | castro-park-discover/scripts/ingest-localbusiness.js:167-174 | the empty text matches no rule of non-empty words |
| Rules.WordsAvoidByRule | castro-park-discover/scripts/ingest-localbusiness.js:167 | plain keywords cannot contain a separator without word characters |
| Rules.MatchesJoin | castro-park-discover/scripts/ingest-localbusiness.js:167-168 | a rule matches the joined list exactly when it matches one of its elements |
| Rules.FirstMatchJoinSameElements | castro-park-discover/scripts/ingest-localbusiness.js:167-174 | lists with the same elements get the same first match and the same labels |
| Rules.SameVerdictsSameResult | castro-park-discover/scripts/ingest-localbusiness.js:168-174 | texts on which every rule agrees get the same first match and the same labels |
| IngestMerged.RawId | castro-park-discover/scripts/ingest-merged.js:141 | the raw id is never empty, and is the item id when there is one |
| IngestMerged.SafeId | castro-park-discover/scripts/ingest-merged.js:142 | the id is never empty and is the encoded raw id |
| IngestMerged.DedupeKey | castro-park-discover/scripts/ingest-merged.js:143 | the key is never empty: the source URL when there is one, else the id |
| IngestMerged.TagCandidates | castro-park-discover/scripts/ingest-merged.js:217-224 | no empty tag is offered; the search term is offered last |
| IngestMerged.BuildTagsTrip | castro-park-discover/scripts/ingest-merged.js:217-226 | distinct, non-empty tags in first-seen order, at most eight; all of them when there are no more than eight distinct ones, exactly eight otherwise |
| IngestMerged.QueryIsTag | castro-park-discover/scripts/ingest-merged.js:224-225 | the search term is a tag whenever the tags are not cut |
| IngestMerged.TripCategoryFacts | castro-park-discover/scripts/ingest-merged.js:252-261 | the category of a TripAdvisor record does not depend on the order of category, type and search term, and a cafe word in any of them makes it a cafe |
| IngestMerged.PriceSource | castro-park-discover/scripts/ingest-merged.js:150 | `price_level` when truthy, else `priceLevel` |
| IngestMerged.PriceText | castro-park-discover/scripts/ingest-merged.js:162 | `price_level`, else the price range, else the price |
| IngestMerged.Highlights | castro-park-discover/scripts/ingest-merged.js:179 | present exactly when the snippet list is; at most its first five texts |
| IngestMerged.NormalizeTripItem | castro-park-discover/scripts/ingest-merged.js:140-183 | id and source id are the encoded raw id; the category from category, type and term; description is the item's, else the snippet, else a default; address is the item's, else `addressString`, else `parentGeoName`, else a default; phone, website and menu follow their two-step chains; no coordinates, distance, gallery, notes or hours |
| IngestMerged.KeyedItems | castro-park-discover/scripts/ingest-merged.js:139-183 | one key and record per item, in item order |
| IngestMerged.NormalizeTrip | castro-park-discover/scripts/ingest-merged.js:137-191 | one record per distinct key, the best rated, the first among equals |
| IngestMerged.SameKeyKeepsBetter | castro-park-discover/scripts/ingest-merged.js:185-188 | two items with one key end as one record: the second only when strictly better rated |
| IngestMerged.KeepWordsAndSpaces | castro-park-discover/scripts/ingest-merged.js:286 | only word characters and white space remain; a text made of them is unchanged |
| IngestMerged.NormalizeName | castro-park-discover/scripts/ingest-merged.js:281-288 | only word characters and white space, with none at either end |
| IngestMerged.TrimKeepsWordsAndSpaces | castro-park-discover/scripts/ingest-merged.js:286-287 | trimming keeps a text made of word characters and white space so |
| IngestMerged.NameIgnoresCase | castro-park-discover/scripts/ingest-merged.js:283 | names that differ only in letter case normalize alike |
| IngestMerged.StripAccentsPointwise | castro-park-discover/scripts/ingest-merged.js:284-285 | without combining marks, stripping accents maps each letter to its base letter |
| IngestMerged.NameIgnoresAccents | castro-park-discover/scripts/ingest-merged.js:281-288 | names that differ only in case and accents normalize alike |
| IngestMerged.AccentedNameMatches | castro-park-discover/scripts/ingest-merged.js:281-288 | "Praça Cívica" and "PRACA CIVICA" normalize alike |
| IngestMerged.GeocodeNames | castro-park-discover/scripts/ingest-merged.js:101 | the names looked up are those of the first `OPENMAP_GEOCODE_LIMIT` trip records, in order, all of them when there are fewer |
| IngestMerged.GeocodeOf | castro-park-discover/scripts/ingest-merged.js:107-124 | the stored entry: coordinates `latitude || lat` and `longitude || lng`, a hotel distance exactly when both exist, address `address || vicinity`, the trimmed search text as the only query, the item's categories or none |
| IngestMerged.WrittenHas | castro-park-discover/scripts/ingest-merged.js:118 | a key written by any `set` call is among the keys afterwards |
| IngestMerged.WrittenFrom | castro-park-discover/scripts/ingest-merged.js:118 | every key present was written by some `set` call |
| IngestMerged.GeocodeMapKeySet | castro-park-discover/scripts/ingest-merged.js:104-128 | the result map's keys are exactly the keys its `set` calls wrote, one per answered lookup |
| IngestMerged.GeocodeMapKeys | castro-park-discover/scripts/ingest-merged.js:104-128 | the map's keys are exactly the normalized names of the lookups that answered |
| IngestMerged.GeocodeLastWins | castro-park-discover/scripts/ingest-merged.js:118-125 | a name's entry is the answer of the last lookup that answered for it: a later `set` replaces an earlier one |
| IngestMerged.MergeMatchFacts | castro-park-discover/scripts/ingest-merged.js:199-210 | a match fills only what the record lacks: its own coordinates and address win; the distance is computed when both coordinates exist, else the geocoder's; terms and tags are united without repeats, tags at most eight; nothing else changes |
| IngestMerged.MergeOne | castro-park-discover/scripts/ingest-merged.js:198-210 | a record keeps its id; without an answer for its normalized name it is unchanged, with one it is merged with it |
| IngestMerged.MergeKeepsCoordinates | castro-park-discover/scripts/ingest-merged.js:200-204 | a record with coordinates keeps them, and its distance is its own or the one computed from them |
| IngestMerged.FreshRecordTakesGeocode | castro-park-discover/scripts/ingest-merged.js:200-207 | a record without coordinates takes the geocoder's, and a distance from them when both exist |
| IngestMerged.MergedPairs | castro-park-discover/scripts/ingest-merged.js:197-212 | one id and merged record per trip record, in order |
| IngestMerged.MergePlaces | castro-park-discover/scripts/ingest-merged.js:193-215 | one record per id, a later record with an id replacing an earlier one in its place |
| IngestMerged.DistinctIdsKeepOrder | castro-park-discover/scripts/ingest-merged.js:193-215 | with distinct ids every record is kept, in order |
| IngestLocalBusiness.ItemId | castro-park-discover/scripts/ingest-localbusiness.js:91-97 | the id is never empty, and is business_id when there is one |
| IngestLocalBusiness.Admitted | castro-park-discover/scripts/ingest-localbusiness.js:99 | the guard keeps at most all items |
| IngestLocalBusiness.GuardNeverFires | castro-park-discover/scripts/ingest-localbusiness.js:91-99 | the `!id` guard never drops an item |
| IngestLocalBusiness.CategoryList | castro-park-discover/scripts/ingest-localbusiness.js:105-108 | the provider categories come first and the search term last |
| IngestLocalBusiness.ReviewCount | castro-park-discover/scripts/ingest-localbusiness.js:116 | reviews_count, else reviews_total, else user_ratings_total, else 0 |
| IngestLocalBusiness.FirstEmail | castro-park-discover/scripts/ingest-localbusiness.js:126 | the first e-mail exactly when there is a non-empty one |
| IngestLocalBusiness.NormalizeItem | castro-park-discover/scripts/ingest-localbusiness.js:110-139 | id and source id are the item id; rating, review count and price level follow the item; the price text is the raw level when truthy, else the `price` field; description, address, image, phone, website, email, source URL, menu and status follow their fallback chains, ending in defaults for description and address; tags are exactly the first eight distinct categories |
| IngestLocalBusiness.KeyedItems | castro-park-discover/scripts/ingest-localbusiness.js:90-139 | one id and record per item, in item order |
| IngestLocalBusiness.NormalizeItems | castro-park-discover/scripts/ingest-localbusiness.js:87-148 | one record per distinct id, in order of first appearance, the best rated, the first among equals |
| IngestLocalBusiness.SameIdKeepsBetter | castro-park-discover/scripts/ingest-localbusiness.js:141-144 | two items with one id end as one record: the second only when strictly better rated |
| IngestLocalBusiness.CategoryOfItem | castro-park-discover/scripts/ingest-localbusiness.js:104-133 | the category is the keyword mapping of the category list, and the record's categories are that list without repeats |
| IngestLocalBusiness.DistanceNeedsBothCoordinates | castro-park-discover/scripts/ingest-localbusiness.js:150-151 | coordinates fall back from `latitude` to `lat` to `location.lat`; a distance from the hotel exists exactly when both coordinates are numbers, and is then the hotel distance of those coordinates |
| IngestLocalBusiness.PriceLevelOfItem | castro-park-discover/scripts/ingest-localbusiness.js:177-183 | a falsy price reads 0, a text with `$` signs reads their count (at least 1), any other text reads its number (0 when not a number), a number reads as itself |
| IngestOpenMap.ItemId | castro-park-discover/scripts/ingest-openmap.js:89-94 | the id is never empty, and is the item id when there is one |
| IngestOpenMap.Admitted | castro-park-discover/scripts/ingest-openmap.js:95 | the guard keeps at most all items |
| IngestOpenMap.GuardNeverFires | castro-park-discover/scripts/ingest-openmap.js:89-95 | the `!id` guard never drops an item |
| IngestOpenMap.CategoryList | castro-park-discover/scripts/ingest-openmap.js:102-106 | the provider categories come first and the search term last |
| IngestOpenMap.NormalizeItem | castro-park-discover/scripts/ingest-openmap.js:108-137 | id and source id are the item id; the category comes from the category list; description and address fall back to vicinity, then a default; image, phone, website, email and both status fields follow the item; tags are exactly the first eight distinct categories |
| IngestOpenMap.KeyedItems | castro-park-discover/scripts/ingest-openmap.js:88-137 | one id and record per item, in item order |
| IngestOpenMap.NormalizeItems | castro-park-discover/scripts/ingest-openmap.js:85-146 | one record per distinct id, in order of first appearance, the best rated, the first among equals |
| IngestOpenMap.SameIdKeepsBetter | castro-park-discover/scripts/ingest-openmap.js:139-142 | two items with one id end as one record: the second only when strictly better rated |
| IngestOpenMap.LightTermsPickLight | castro-park-discover/scripts/ingest-openmap.js:148-154 | a search term naming a park, museum or shopping centre, in any case, gets the light limit |
| IngestOpenMap.CafeCategoryWins | castro-park-discover/scripts/ingest-openmap.js:172-181 | a cafe word in any entry of the category list makes the place a cafe: the cafe test comes first |
| IngestOpenMap.PriceLevelOfItem | castro-park-discover/scripts/ingest-openmap.js:183-189 | a falsy price reads 0, a text with `$` signs reads their count (at least 1), any other text reads its number (0 when not a number), a number reads as itself |
| DeriveSubcategories.Norm | castro-park-discover/scripts/derive-subcategories.js:7-13 | no white space at either end of the normalized text |
| DeriveSubcategories.Uniq | castro-park-discover/scripts/derive-subcategories.js:19-21 | each non-empty value exactly once, nothing else |
| DeriveSubcategories.UniqHead | castro-park-discover/scripts/derive-subcategories.js:19-21 | a list that starts with a non-empty value keeps it first |
| DeriveSubcategories.NameInBlob | castro-park-discover/scripts/derive-subcategories.js:24-27 | a word of the normalized name is found in the searched text |
| DeriveSubcategories.RestaurantsLabelled | castro-park-discover/scripts/derive-subcategories.js:32-47 | every restaurant label and its fallback are non-empty |
| DeriveSubcategories.NightlifeLabelled | castro-park-discover/scripts/derive-subcategories.js:49-57 | every nightlife label and its fallback are non-empty |
| DeriveSubcategories.SmallTablesLabelled | castro-park-discover/scripts/derive-subcategories.js:59-94 | every label of the other five tables is non-empty |
| DeriveSubcategories.TablesLabelled | castro-park-discover/scripts/derive-subcategories.js:32-94 | exactly the seven categories of the catalogue have a table, each labelled |
| DeriveSubcategories.Labels | castro-park-discover/scripts/derive-subcategories.js:29-96 | the first three of the unique matching labels (or of the fallback when none matches), or all of them when there are fewer |
| DeriveSubcategories.LabelsFacts | castro-park-discover/scripts/derive-subcategories.js:29-96 | at least one label; only the fallback when no test matches; otherwise labels of matching tests, the first test's first |
| DeriveSubcategories.Derive | castro-park-discover/scripts/derive-subcategories.js:23-97 | at most three distinct labels |
| DeriveSubcategories.DeriveByCategory | castro-park-discover/scripts/derive-subcategories.js:23-97 | a place outside the seven categories gets none; one inside gets at least one, and only the fallback when no keyword occurs |
| DeriveSubcategories.FirstRuleFirst | castro-park-discover/scripts/derive-subcategories.js:29-96 | when the first test matches, its label comes first |
| DeriveSubcategories.PizzaFirst | castro-park-discover/scripts/derive-subcategories.js:33 | a restaurant that mentions pizza is labelled Pizza first |
| DeriveSubcategories.RefreshedFacts | castro-park-discover/scripts/derive-subcategories.js:106-113 | a place changes exactly when it has no labels and derives some, and then holds them; a place with labels keeps them; nothing else changes |
| DeriveSubcategories.CataloguedPlaceGetsLabels | castro-park-discover/scripts/derive-subcategories.js:105-113 | with the script's labelling a catalogued place without labels always changes |
| DeriveSubcategories.RefreshedSettled | castro-park-discover/scripts/derive-subcategories.js:106-113 | a refreshed place does not change again |
| DeriveSubcategories.RefreshAll | castro-park-discover/scripts/derive-subcategories.js:105-114 | every place after its turn of the loop, same count and order |
| DeriveSubcategories.CountChanged | castro-park-discover/scripts/derive-subcategories.js:104-113 | the changes are at most the places |
| DeriveSubcategories.CountChangedZero | castro-park-discover/scripts/derive-subcategories.js:110-113 | no changing place counts nothing |
| DeriveSubcategories.CountChangedPositive | castro-park-discover/scripts/derive-subcategories.js:110-113 | one changing place makes the count positive |
| DeriveSubcategories.SecondRunChangesNothing | castro-park-discover/scripts/derive-subcategories.js:99-121 | running the script twice changes nothing the second time and counts nothing |
| DeriveSubcategories.CountChangedStep | castro-park-discover/scripts/derive-subcategories.js:110-113 | each place adds one to the count exactly when it changes |
| DeriveSubcategories.DeriveAll | castro-park-discover/scripts/derive-subcategories.js:104-114 | the array holds every place refreshed in place, and the count is the number that changed |
| KeyedDedupe.KeysOf | castro-park-discover/scripts/ingest-localbusiness.js:141-147 | the keys of the entries, in order |
| KeyedDedupe.ValuesOf | castro-park-discover/scripts/ingest-localbusiness.js:147 | the values of the entries, in order |
| KeyedDedupe.KeysOfSnoc | castro-park-discover/scripts/ingest-localbusiness.js:141-144 | one more entry adds its key at the end |
| KeyedDedupe.IndexOf | castro-park-discover/scripts/ingest-localbusiness.js:141 | where the key's entry stands, exactly when there is one |
| KeyedDedupe.OfferKeys | castro-park-discover/scripts/ingest-localbusiness.js:141-144 | an offer adds a new key at the end and leaves present keys as they are |
| KeyedDedupe.BuildSnoc | castro-park-discover/scripts/ingest-localbusiness.js:90-145 | each further pair is one more offer |
| KeyedDedupe.BuildKeys | castro-park-discover/scripts/ingest-localbusiness.js:90-145 | one entry per distinct key, in order of first appearance |
| KeyedDedupe.StillWins | castro-park-discover/scripts/ingest-localbusiness.js:141-144 | a winning pair still wins against a pair of another key or a no better one |
| KeyedDedupe.NewWins | castro-park-discover/scripts/ingest-localbusiness.js:142 | an arriving pair wins when every earlier pair of its key is strictly worse |
| KeyedDedupe.BuildWinners | castro-park-discover/scripts/ingest-localbusiness.js:90-145 | every entry is the winning pair of its key |
| KeyedDedupe.OfferWinners | castro-park-discover/scripts/ingest-localbusiness.js:141-144 | one more offer keeps every entry the winner of its key |
| KeyedDedupe.OfferEntry | castro-park-discover/scripts/ingest-localbusiness.js:141-144 | each entry after an offer is the winner of its key |
| KeyedDedupe.Dedupe | castro-park-discover/scripts/ingest-localbusiness.js:87-148 | one value per distinct key |
| KeyedDedupe.DedupeKeepsWinners | castro-park-discover/scripts/ingest-localbusiness.js:87-148 | entry p holds the p-th distinct key and a record no pair of that key beats, earlier equals losing |
| KeyedDedupe.SameKeyPair | castro-park-discover/scripts/ingest-localbusiness.js:141-144 | of two records under one key, the second is kept only when strictly better rated |
| KeyedDedupe.SameKeyTwo | castro-park-discover/scripts/ingest-localbusiness.js:141-144 | the same for any two pairs that share their key |
| KeyedDedupe.DedupeLoop | castro-park-discover/scripts/ingest-localbusiness.js:90-147 | the loop over the pairs yields the deduplicated values |
| KeyedDedupe.PutKeys | castro-park-discover/scripts/ingest-merged.js:211 | `set` adds a new key at the end and leaves present keys as they are |
| KeyedDedupe.PutAllSnoc | castro-park-discover/scripts/ingest-merged.js:197-212 | each further pair is one more `set` |
| KeyedDedupe.SetAll | castro-park-discover/scripts/ingest-merged.js:197-212 | the map's entries after `set` with every pair |
| KeyedDedupe.PutAllKeys | castro-park-discover/scripts/ingest-merged.js:197-214 | one entry per distinct key, in order of first appearance |
| KeyedDedupe.StillLast | castro-park-discover/scripts/ingest-merged.js:211 | a pair stays the last of its key when a pair of another key arrives |
| KeyedDedupe.PutEntry | castro-park-discover/scripts/ingest-merged.js:211 | each entry after one more `set` is the last value set for its key |
| KeyedDedupe.PutAllLast | castro-park-discover/scripts/ingest-merged.js:197-212 | every entry is the last value set for its key |
| KeyedDedupe.PutLast | castro-park-discover/scripts/ingest-merged.js:211 | one more `set` keeps every entry the last value set for its key |
| KeyedDedupe.PutAllKeepsLast | castro-park-discover/scripts/ingest-merged.js:193-215 | entry p holds the p-th distinct key and the last value set for it |
| KeyedDedupe.PutAllFreshKeys | castro-park-discover/scripts/ingest-merged.js:197-212 | when no key repeats the map is the pairs themselves |
| EnrichGooglePlaces.ApplyFlag | castro-park-discover/scripts/enrich-google-places.js:25-33 | exactly `--limit`, `--sleep` and `--photos` skip their value; `--limit` with a value that is 0 or not a number clears the limit; `--sleep` sets only the pause, 120 ms when the value is 0 or not a number; `--photos` sets only the photo count, a value that is negative, 0 or not a number giving 0; each bare flag sets its one option; any other argument changes nothing |
| EnrichGooglePlaces.FullRebuild | castro-park-discover/scripts/enrich-google-places.js:36-40 | a full rebuild asks for editorial summaries and, unless a count was given, six photos; missing-only mode is left alone |
| EnrichGooglePlaces.ParseArgsLoop | castro-park-discover/scripts/enrich-google-places.js:11-43 | one pass over the arguments gives the options of `parseArgs` |
| EnrichGooglePlaces.NoArgsDefaults | castro-park-discover/scripts/enrich-google-places.js:13-22 | no arguments: no limit, 120 ms pauses, missing-only, no photos, no editorial |
| EnrichGooglePlaces.LimitZeroIsUnlimited | castro-park-discover/scripts/enrich-google-places.js:26 | a leading `--limit` that no later one overrides means no limit exactly when its value is `0`, empty or not a number, and otherwise that number |
| EnrichGooglePlaces.ScanKeepsLimit | castro-park-discover/scripts/enrich-google-places.js:24-34 | arguments without `--limit` leave the limit as it is |
| EnrichGooglePlaces.ScanKeepsPhotosNonNegative | castro-park-discover/scripts/enrich-google-places.js:24-34 | no flag makes the photo count negative |
| EnrichGooglePlaces.PhotosClamped | castro-park-discover/scripts/enrich-google-places.js:31-40 | the photo count is never negative, and a full rebuild fetches photos and editorial summaries |
| EnrichGooglePlaces.Backoff | castro-park-discover/scripts/enrich-google-places.js:143-155 | every pause lies between 1200 and 15000 ms |
| EnrichGooglePlaces.BackoffDoubles | castro-park-discover/scripts/enrich-google-places.js:155 | the pauses are 1200 times a power of two, cut at 15000 |
| EnrichGooglePlaces.CallsFrom | castro-park-discover/scripts/enrich-google-places.js:145-160 | the calls end after the current one and never pass the allowed attempts |
| EnrichGooglePlaces.Calls | castro-park-discover/scripts/enrich-google-places.js:140-161 | at least one details call is made |
| EnrichGooglePlaces.CallsFromShape | castro-park-discover/scripts/enrich-google-places.js:145-160 | every call before the last answered a retried status, and the last did not or used up the attempts |
| EnrichGooglePlaces.CallsShape | castro-park-discover/scripts/enrich-google-places.js:140-161 | between one and `maxAttempts` calls; only the last may answer a status that is not retried |
| EnrichGooglePlaces.DetailsWithRetry | castro-park-discover/scripts/enrich-google-places.js:140-161 | returns the last answer, after as many calls as the retry rule allows, with the doubling pauses between them |
| EnrichGooglePlaces.PhotoUrls | castro-park-discover/scripts/enrich-google-places.js:265-276 | at most `photos` URLs, none of them empty |
| EnrichGooglePlaces.MergeUrls | castro-park-discover/scripts/enrich-google-places.js:265-269 | no photo URL unless photos were asked for and the answer lists some |
| EnrichGooglePlaces.MergeContact | castro-park-discover/scripts/enrich-google-places.js:228-235 | each contact field present in the answer wins, an absent one keeps the stored value, nothing else changes |
| EnrichGooglePlaces.MergeScores | castro-park-discover/scripts/enrich-google-places.js:237-243 | a zero rating or review count never replaces the stored one; a price level sets both the level and its `$` text |
| EnrichGooglePlaces.MergeHours | castro-park-discover/scripts/enrich-google-places.js:245-250 | weekday hours replace the stored hours; open-now sets "Aberto agora" or "Fechado agora" |
| EnrichGooglePlaces.MergeTaxonomy | castro-park-discover/scripts/enrich-google-places.js:252-261 | category and tags follow the answer's types whenever they say anything, else stay |
| EnrichGooglePlaces.MergeMedia | castro-park-discover/scripts/enrich-google-places.js:278-282 | resolved photos fill an empty image and an empty gallery and never replace existing ones |
| EnrichGooglePlaces.MergeEditorial | castro-park-discover/scripts/enrich-google-places.js:286-291 | the editorial summary replaces only a description missing or, once trimmed, shorter than 20 UTF-16 code units |
| Text.Utf16Length | castro-park-discover/scripts/enrich-google-places.js:288 | the JavaScript length counts each character once, or twice outside the Basic Multilingual Plane |
| EnrichGooglePlaces.MergeDetails | castro-park-discover/scripts/enrich-google-places.js:224-293 | the ids are kept and the place is stamped with the run's time |
| EnrichGooglePlaces.NoTypesNoCategory | castro-park-discover/scripts/enrich-google-places.js:253-256 | an answer without types maps to no category |
| EnrichGooglePlaces.NoTypesNoTags | castro-park-discover/scripts/enrich-google-places.js:258-261 | an answer without types gives no tags |
| EnrichGooglePlaces.NoTypesNoTaxonomy | castro-park-discover/scripts/enrich-google-places.js:252-261 | an answer without types leaves category and tags alone |
| EnrichGooglePlaces.TagRulesNonEmpty | castro-park-discover/scripts/enrich-google-places.js:50-71 | no tag rule matches on an empty word |
| EnrichGooglePlaces.EmptyAnswerOnlyStamps | castro-park-discover/scripts/enrich-google-places.js:224-293 | an answer that carries nothing only stamps the place |
| EnrichGooglePlaces.ContactSettled | castro-park-discover/scripts/enrich-google-places.js:228-235 | the merged place already holds the answer's contact fields |
| EnrichGooglePlaces.ScoresSettled | castro-park-discover/scripts/enrich-google-places.js:237-243 | the merged place already holds the answer's scores |
| EnrichGooglePlaces.HoursSettled | castro-park-discover/scripts/enrich-google-places.js:245-250 | the merged place already holds the answer's hours |
| EnrichGooglePlaces.TaxonomySettled | castro-park-discover/scripts/enrich-google-places.js:252-261 | the merged place already holds the answer's category and tags |
| EnrichGooglePlaces.MediaSettled | castro-park-discover/scripts/enrich-google-places.js:263-283 | the merged place already holds the answer's photos |
| EnrichGooglePlaces.EditorialSettled | castro-park-discover/scripts/enrich-google-places.js:285-291 | the merged place already holds the answer's editorial summary |
| EnrichGooglePlaces.MergeIdempotent | castro-park-discover/scripts/enrich-google-places.js:224-293 | merging the same answer a second time changes nothing more |
| EnrichGooglePlaces.NoPhotosKeepMedia | castro-park-discover/scripts/enrich-google-places.js:263-283 | with no photos asked for, image and gallery stay as they were |
| EnrichGooglePlaces.Visit | castro-park-discover/scripts/enrich-google-places.js:189-301 | a reached limit or an unwanted place changes nothing; otherwise the place is processed and merged and counted, or recorded as a failure with its status (or "UNKNOWN") and the answer's error message |
| EnrichGooglePlaces.Scan | castro-park-discover/scripts/enrich-google-places.js:188-302 | the loop returns one place per place |
| EnrichGooglePlaces.EnrichAll | castro-park-discover/scripts/enrich-google-places.js:188-302 | the run returns one place per place |
| EnrichGooglePlaces.TurnSound | castro-park-discover/scripts/enrich-google-places.js:189-221 | each turn processes at most one place, never past the limit, and counts it as updated or failed |
| EnrichGooglePlaces.ScanCounts | castro-park-discover/scripts/enrich-google-places.js:179-302 | for any loop body that keeps the counting rule: processed equals updated plus failures, and stays within the places and the limit |
| EnrichGooglePlaces.ScanKeeps | castro-park-discover/scripts/enrich-google-places.js:188-302 | for any loop body that keeps the ids: every place stays in its position with its ids, and an unwanted one comes back as it was |
| EnrichGooglePlaces.ScanAfterLimit | castro-park-discover/scripts/enrich-google-places.js:189 | once the limit is reached the loop body leaves counters and places alone |
| EnrichGooglePlaces.EnrichAllCounts | castro-park-discover/scripts/enrich-google-places.js:179-302 | every processed place was updated or recorded as a failure, and no more are processed than the limit allows or there are |
| EnrichGooglePlaces.EnrichAllKeeps | castro-park-discover/scripts/enrich-google-places.js:188-302 | every place comes back in its position with its ids; an unwanted one comes back unchanged |
| EnrichGooglePlaces.AfterLimit | castro-park-discover/scripts/enrich-google-places.js:189 | once the limit is reached the rest of the places pass through untouched |
| EnrichGooglePlaces.Enrich | castro-park-discover/scripts/enrich-google-places.js:179-302 | the loop over the places gives the counters and places of the fold |
| EnrichGooglePlaces.EnrichStep | castro-park-discover/scripts/enrich-google-places.js:188-302 | each of the loop body's three outcomes is one turn of the fold |
| EnrichGooglePlaces.Bump | castro-park-discover/scripts/enrich-google-places.js:317 | a status already counted is incremented in place; a first one is added last with count 1 |
| EnrichGooglePlaces.BumpKeys | castro-park-discover/scripts/enrich-google-places.js:316-319 | counting a status adds it to the keys as an object key is added: last, and once |
| EnrichGooglePlaces.CountsKeys | castro-park-discover/scripts/enrich-google-places.js:316-319 | the report's statuses are the distinct failure statuses, in order of first appearance |
| EnrichGooglePlaces.CountsExact | castro-park-discover/scripts/enrich-google-places.js:316-319 | each reported status is counted exactly as often as it occurs among the failures |
| EnrichGooglePlaces.CountsAddUp | castro-park-discover/scripts/enrich-google-places.js:311-320 | the per-status counts add up to the number of failures |
| EnrichGooglePlaces.ReportedFailures | castro-park-discover/scripts/enrich-google-places.js:322 | the report lists the first 200 failures, all of them when there are no more |
| ExpandGooglePlaces.NumberOr | castro-park-discover/scripts/expand-google-places.js:25-28 | a value that is NaN or `0` gives the fallback, any other number is kept |
| ExpandGooglePlaces.ApplyFlag | castro-park-discover/scripts/expand-google-places.js:24-28 | exactly the four flags skip their value, each setting its one option to the number or its default; any other argument changes nothing |
| ExpandGooglePlaces.ParseArgsLoop | castro-park-discover/scripts/expand-google-places.js:14-31 | one pass over the arguments gives the options of `parseArgs` |
| ExpandGooglePlaces.NoArgsDefaults | castro-park-discover/scripts/expand-google-places.js:16-21 | no arguments: target 500, 250 ms pauses, 60 places a query, photos 1000 px wide |
| ExpandGooglePlaces.TargetZeroIsDefault | castro-park-discover/scripts/expand-google-places.js:25 | `--target 0` keeps the default target |
| ExpandGooglePlaces.ScanKeepsNoZero | castro-park-discover/scripts/expand-google-places.js:23-29 | no flag sets an option to `0` |
| ExpandGooglePlaces.OptionsNeverZero | castro-park-discover/scripts/expand-google-places.js:14-31 | whatever the arguments, no option ends as `0` |
| ExpandGooglePlaces.SearchBackoff | castro-park-discover/scripts/expand-google-places.js:112-130 | every pause lies between 1500 and 15000 ms |
| ExpandGooglePlaces.SearchCallsFrom | castro-park-discover/scripts/expand-google-places.js:114-135 | the calls end after the current one and never pass six |
| ExpandGooglePlaces.SearchCalls | castro-park-discover/scripts/expand-google-places.js:110-136 | one to six text-search calls are made |
| ExpandGooglePlaces.SearchCallsFromShape | castro-park-discover/scripts/expand-google-places.js:114-135 | every answer before the last was retried, and the last was not |
| ExpandGooglePlaces.SearchCallsShape | castro-park-discover/scripts/expand-google-places.js:110-136 | between one and six calls; every answer but the last was retried, and the last was a plain answer or used up its attempts |
| ExpandGooglePlaces.TokenCallsFrom | castro-park-discover/scripts/expand-google-places.js:120-125 | an inactive page token keeps being asked for until the fifth call |
| ExpandGooglePlaces.TokenGivesUpAtFive | castro-park-discover/scripts/expand-google-places.js:120-125 | a page token that never becomes active is asked for five times |
| ExpandGooglePlaces.InvalidWithoutTokenIsFinal | castro-park-discover/scripts/expand-google-places.js:120 | without a page token `INVALID_REQUEST` is answered after one call |
| ExpandGooglePlaces.ThrottledCallsFrom | castro-park-discover/scripts/expand-google-places.js:127-132 | quota errors keep being retried until the sixth call |
| ExpandGooglePlaces.ThrottledGivesUpAtSix | castro-park-discover/scripts/expand-google-places.js:127-132 | quota errors that never clear are met with six calls |
| ExpandGooglePlaces.TokenBackoffLinear | castro-park-discover/scripts/expand-google-places.js:123 | after inactive tokens only the pauses grow by 800 ms from 1500, cut at 6000 |
| ExpandGooglePlaces.ThrottledBackoffDoubles | castro-park-discover/scripts/expand-google-places.js:130 | after quota errors only the pauses double from 1500, cut at 15000 |
| ExpandGooglePlaces.Backoffs | castro-park-discover/scripts/expand-google-places.js:112-130 | one pause per retried call, in order |
| ExpandGooglePlaces.SearchStep | castro-park-discover/scripts/expand-google-places.js:114-135 | the answer of a call decides whether another call follows and how the pause grows |
| ExpandGooglePlaces.TextSearchWithRetry | castro-park-discover/scripts/expand-google-places.js:110-136 | returns the last answer, after as many calls as the retry rules allow, with the matching pauses between them |
| ExpandGooglePlaces.ImageOf | castro-park-discover/scripts/expand-google-places.js:224-225 | an image only from a photo reference, and never an empty one |
| ExpandGooglePlaces.CategoryOf | castro-park-discover/scripts/expand-google-places.js:218-231 | the category from the types, else the query's hint, else "attractions" |
| ExpandGooglePlaces.NewPlace | castro-park-discover/scripts/expand-google-places.js:227-251 | the new record: keyed by the place id, category, scores, price, tags, image and gallery from the result, contacts empty, a search link and the discovery time |
| ExpandGooglePlaces.PriceTextOfLevel | castro-park-discover/scripts/expand-google-places.js:49-52 | a missing Google price level gives level 0 and no price text; for levels 1 to 4 the text is a run of dollar signs that reads back as the level |
| ExpandGooglePlaces.CategoryKnown | castro-park-discover/scripts/expand-google-places.js:138-170 | every query's hint is a site category, so a new place lands in one |
| ExpandGooglePlaces.Offer | castro-park-discover/scripts/expand-google-places.js:214-255 | a result without a place id or with a known one is skipped; a new one is appended, its id remembered, and counted for the query |
| ExpandGooglePlaces.BaseIds | castro-park-discover/scripts/expand-google-places.js:184 | the known ids hold every non-empty `sourceId \|\| id` of the base and no empty id |
| ExpandGooglePlaces.OfferSound | castro-park-discover/scripts/expand-google-places.js:214-255 | every appended record comes from a result of a query and carries a new id, shared with no other record |
| ExpandGooglePlaces.SoundCounters | castro-park-discover/scripts/expand-google-places.js:194-255 | the counters play no part in which records were appended |
| ExpandGooglePlaces.ResultsSound | castro-park-discover/scripts/expand-google-places.js:210-259 | a page of results keeps the appended records sound |
| ExpandGooglePlaces.PagesSound | castro-park-discover/scripts/expand-google-places.js:197-266 | the paging of a query keeps the appended records sound |
| ExpandGooglePlaces.QueriesSound | castro-park-discover/scripts/expand-google-places.js:191-269 | the query loop keeps the appended records sound |
| ExpandGooglePlaces.ResultsCount | castro-park-discover/scripts/expand-google-places.js:210-259 | a page only appends, counts what it appends, and never passes the target or the per-query cap |
| ExpandGooglePlaces.PagesCount | castro-park-discover/scripts/expand-google-places.js:197-266 | the paging only appends, counts what it appends, stays within both caps and asks for no more pages than are left of three |
| ExpandGooglePlaces.QueryCap | castro-park-discover/scripts/expand-google-places.js:194-266 | one query appends `collectedForQuery` records, at most `maxPerQuery`, over at most three pages |
| ExpandGooglePlaces.QueriesCount | castro-park-discover/scripts/expand-google-places.js:191-269 | the query loop only appends, stays within the target and asks for at most three pages a query |
| ExpandGooglePlaces.ReachedStops | castro-park-discover/scripts/expand-google-places.js:192 | once the target is reached no further query is made |
| ExpandGooglePlaces.BadStatusEndsPaging | castro-park-discover/scripts/expand-google-places.js:204-207 | an answer other than `OK` or `ZERO_RESULTS` ends the query's paging with nothing added |
| ExpandGooglePlaces.NoTokenEndsPaging | castro-park-discover/scripts/expand-google-places.js:261-262 | an answer without a next page token is the query's last page |
| ExpandGooglePlaces.ContextKeyed | castro-park-discover/scripts/expand-google-places.js:228-229 | every new record is keyed by its result's place id |
| ExpandGooglePlaces.ExpandFacts | castro-park-discover/scripts/expand-google-places.js:184-273 | the base places come first unchanged; each new one is built from a search result, has a non-empty id that is neither in the base nor repeated, and was added while the total was below the target |
| ExpandGooglePlaces.MadeByNewPlace | castro-park-discover/scripts/expand-google-places.js:227-253 | a record of the run is the new record of some result of some query |
| ExpandGooglePlaces.NewCategoriesKnown | castro-park-discover/scripts/expand-google-places.js:218-231 | every new place lands in one of the site's seven categories |
| ExpandGooglePlaces.ResultsStep | castro-park-discover/scripts/expand-google-places.js:210-215 | one turn of the results loop is one offer |
| ExpandGooglePlaces.ScanResults | castro-park-discover/scripts/expand-google-places.js:210-259 | the results loop gives the records of the fold over the page |
| ExpandGooglePlaces.SearchQuery | castro-park-discover/scripts/expand-google-places.js:194-266 | the page loop gives the records of the fold over at most three pages |
| ExpandGooglePlaces.Discover | castro-park-discover/scripts/expand-google-places.js:178-273 | the written places are those of the fold over the fixed queries |
| EnrichApifyMaps.CategoryList | castro-park-discover/scripts/enrich-apify-maps-extractor.js:21-24 | every category word is non-empty, trimmed, and one of the comma-separated parts |
| EnrichApifyMaps.ApplyFlag | castro-park-discover/scripts/enrich-apify-maps-extractor.js:30-41 | exactly the five value flags skip their value; `--add-new` turns on adding and nothing else, and only it does; `--location` and `--language` set only their field, and only to a non-empty value; `--max` sets only the per-search maximum, and only to a number other than 0; `--min-stars` takes its value as given; any other argument changes nothing |
| EnrichApifyMaps.ParseArgsLoop | castro-park-discover/scripts/enrich-apify-maps-extractor.js:14-45 | one pass over the arguments gives the options of `parseArgs` |
| EnrichApifyMaps.NoArgsDefaults | castro-park-discover/scripts/enrich-apify-maps-extractor.js:16-27 | without flags or settings: Goiânia, Portuguese, 120 places a search, no minimum, new places not added |
| EnrichApifyMaps.MinStarsTakesEmpty | castro-park-discover/scripts/enrich-apify-maps-extractor.js:34 | `--min-stars` takes its value even when it is empty |
| EnrichApifyMaps.ScanKeepsClean | castro-park-discover/scripts/enrich-apify-maps-extractor.js:35-40 | no flag leaves an empty or untrimmed category word |
| EnrichApifyMaps.CategoriesClean | castro-park-discover/scripts/enrich-apify-maps-extractor.js:14-45 | whatever the flags and settings, the category words are trimmed and non-empty |
| EnrichApifyMaps.ScanKeepsAddNewOff | castro-park-discover/scripts/enrich-apify-maps-extractor.js:29-42 | without `--add-new` among the remaining arguments adding stays off |
| EnrichApifyMaps.AddNewOnlyByFlag | castro-park-discover/scripts/enrich-apify-maps-extractor.js:26-41 | new places are added only when `--add-new` is given |
| EnrichApifyMaps.AddNewFlag | castro-park-discover/scripts/enrich-apify-maps-extractor.js:41 | `--add-new` turns adding on |
| EnrichApifyMaps.DayPt | castro-park-discover/scripts/enrich-apify-maps-extractor.js:81 | English day names in Portuguese, any other name kept |
| EnrichApifyMaps.HourLines | castro-park-discover/scripts/enrich-apify-maps-extractor.js:77-83 | no more lines than rows |
| EnrichApifyMaps.KeptIndices | castro-park-discover/scripts/enrich-apify-maps-extractor.js:79-81 | the positions of the rows with a day and hours, increasing, each such row included |
| EnrichApifyMaps.NormalizeHoursLoop | castro-park-discover/scripts/enrich-apify-maps-extractor.js:73-85 | the push loop gives the lines of `normalizeHours`, none for a value that is not a list |
| EnrichApifyMaps.HourLinesFromKeptRows | castro-park-discover/scripts/enrich-apify-maps-extractor.js:77-83 | one line per row with a day and hours: the `k`-th line is the line of the `k`-th such row |
| EnrichApifyMaps.AllKeptKeepAll | castro-park-discover/scripts/enrich-apify-maps-extractor.js:77-83 | rows that all have a day and hours keep one line each |
| EnrichApifyMaps.MapCategoryFacts | castro-park-discover/scripts/enrich-apify-maps-extractor.js:87-98 | the category is one of seven, and "attractions" when no test matches |
| EnrichApifyMaps.MapCategoryFirstRule | castro-park-discover/scripts/enrich-apify-maps-extractor.js:88-95 | the first matching test in the order nightlife, cafes, restaurants, shopping, nature, culture decides |
| EnrichApifyMaps.NormalizeTagsFacts | castro-park-discover/scripts/enrich-apify-maps-extractor.js:100-112 | the tags are exactly the labels of the matching tests, once each, at most eight |
| EnrichApifyMaps.MatchedTags | castro-park-discover/scripts/enrich-apify-maps-extractor.js:100-111 | with no more tests than the cap, the capped set of labels holds every matching label and nothing else |
| EnrichApifyMaps.Score | castro-park-discover/scripts/enrich-apify-maps-extractor.js:199-200 | the incoming score unless it is missing or zero, the stored one otherwise |
| EnrichApifyMaps.OrNull | castro-park-discover/scripts/enrich-apify-maps-extractor.js:202-204 | the item's value when present, else the stored one when truthy, else null |
| EnrichApifyMaps.MergeItem | castro-park-discover/scripts/enrich-apify-maps-extractor.js:214-243 | the merge keeps the place's id and source id |
| EnrichApifyMaps.MergeItemFields | castro-park-discover/scripts/enrich-apify-maps-extractor.js:187-243 | the name is always taken, the scores always refreshed, the other fields filled only where they are falsy, everything else kept |
| EnrichApifyMaps.MergeIdempotent | castro-park-discover/scripts/enrich-apify-maps-extractor.js:214-243 | merging the same item again changes nothing |
| EnrichApifyMaps.NewFromItem | castro-park-discover/scripts/enrich-apify-maps-extractor.js:253-279 | a new place is keyed by the item's place id |
| EnrichApifyMaps.NewFromItemFields | castro-park-discover/scripts/enrich-apify-maps-extractor.js:255-279 | a new place: the item's fields, no image, an empty gallery, price level 0 |
| EnrichApifyMaps.RemergeNotUpdated | castro-park-discover/scripts/enrich-apify-maps-extractor.js:215-252 | a second merge of the same item never counts as an update |
| EnrichApifyMaps.NewScoreUpdates | castro-park-discover/scripts/enrich-apify-maps-extractor.js:215-252 | a new non-zero score different from the stored one always counts as an update |
| EnrichApifyMaps.KeyIndex | castro-park-discover/scripts/enrich-apify-maps-extractor.js:150-154 | every place with a key is filed under it, a later place with the same key replacing an earlier |
| EnrichApifyMaps.ScriptHandlers | castro-park-discover/scripts/enrich-apify-maps-extractor.js:214-283 | the script's merge and new-place builder keep the key a place is filed under |
| EnrichApifyMaps.Start | castro-park-discover/scripts/enrich-apify-maps-extractor.js:150-154 | the first index names, for each key, a place filed under it |
| EnrichApifyMaps.MergeAt | castro-park-discover/scripts/enrich-apify-maps-extractor.js:214-252 | a merge changes only its place, counts it as matched, and counts an update exactly when the compared fields changed |
| EnrichApifyMaps.Append | castro-park-discover/scripts/enrich-apify-maps-extractor.js:280-282 | a new place goes last, is indexed under its key and counted as added |
| EnrichApifyMaps.MergeAtIndexed | castro-park-discover/scripts/enrich-apify-maps-extractor.js:214-252 | a merge keeps every index entry naming a place with that key |
| EnrichApifyMaps.AppendIndexed | castro-park-discover/scripts/enrich-apify-maps-extractor.js:280-282 | appending under a fresh key keeps every index entry naming a place with that key |
| EnrichApifyMaps.Absorbed | castro-park-discover/scripts/enrich-apify-maps-extractor.js:177-283 | one item keeps every index entry naming a place with that key |
| EnrichApifyMaps.AbsorbedCounts | castro-park-discover/scripts/enrich-apify-maps-extractor.js:177-283 | an item without a place id changes nothing; `matched` counts an indexed id, `added` an appended place, `updated` a merge that changed the compared fields |
| EnrichApifyMaps.SyncFrom | castro-park-discover/scripts/enrich-apify-maps-extractor.js:177-284 | updates never outnumber matches, and matches plus additions never outnumber the items |
| EnrichApifyMaps.MergeExtends | castro-park-discover/scripts/enrich-apify-maps-extractor.js:214-252 | merging into the place a key is filed under keeps stored places in place with their keys |
| EnrichApifyMaps.AppendExtends | castro-park-discover/scripts/enrich-apify-maps-extractor.js:280-282 | appending under a key new to the index keeps the run an extension of where it began |
| EnrichApifyMaps.AbsorbedExtends | castro-park-discover/scripts/enrich-apify-maps-extractor.js:177-283 | one item keeps the run an extension of where it began |
| EnrichApifyMaps.SyncFromExtends | castro-park-discover/scripts/enrich-apify-maps-extractor.js:177-284 | the loop keeps the run an extension of where it began |
| EnrichApifyMaps.SyncFromNoAdd | castro-park-discover/scripts/enrich-apify-maps-extractor.js:253 | without adding, no place is appended |
| EnrichApifyMaps.ShadowedAtStart | castro-park-discover/scripts/enrich-apify-maps-extractor.js:150-154 | a place is never merged into exactly when it has no key or a later place has the same key |
| EnrichApifyMaps.SyncFacts | castro-park-discover/scripts/enrich-apify-maps-extractor.js:150-284 | stored places keep their positions and keys, only the place a key is filed under is merged into, appended places have distinct new keys, nothing is appended without `--add-new`, and the counters bound each other |
| EnrichApifyMaps.RepeatMergesIntoAdded | castro-park-discover/scripts/enrich-apify-maps-extractor.js:280-281 | an item repeated after its place was appended merges into that new place |
| EnrichApifyMaps.Catalogue.constructor | castro-park-discover/scripts/enrich-apify-maps-extractor.js:148-154 | the catalogue starts with the stored places, each filed under its key |
| EnrichApifyMaps.Catalogue.Absorb | castro-park-discover/scripts/enrich-apify-maps-extractor.js:177-283 | one turn of the item loop changes the catalogue as one item of the fold does |
| EnrichApifyMaps.SyncStep | castro-park-discover/scripts/enrich-apify-maps-extractor.js:177-178 | one turn of the item loop is one item of the fold |
| EnrichApifyMaps.SyncItems | castro-park-discover/scripts/enrich-apify-maps-extractor.js:173-284 | the loop ends with the places, index and counters of the fold |
| EnrichApifyMaps.ReportAddsUp | castro-park-discover/scripts/enrich-apify-maps-extractor.js:290-299 | the total is the stored places plus the added ones, updates never outnumber matches, and matches plus additions never outnumber the items |
| Places.LookupOverride | castro-park-discover/scripts/ingest-tripadvisor.js:302 | the first key's entry wins, the second key's is used only when the first is absent, and nothing is found only when both are absent |
| Places.ApplyPatch | castro-park-discover/scripts/ingest-tripadvisor.js:303 | each of the seventeen fields the patch may hold, ids included, takes the patch's value when present; every field the patch cannot name is kept |
| Places.PatchKeys | castro-park-discover/scripts/ingest-tripadvisor.js:303 | the patch's id and source id replace the record's; nothing else changes |
| Places.PatchScores | castro-park-discover/scripts/ingest-tripadvisor.js:303 | the patch's name, category, rating and review count replace the record's; nothing else changes |
| Places.PatchDetails | castro-park-discover/scripts/ingest-tripadvisor.js:303 | the patch's description, address, image, coordinates, phone and website replace the record's; nothing else changes |
| Places.PatchLists | castro-park-discover/scripts/ingest-tripadvisor.js:303 | the patch's tags, gallery, highlights and notes replace the record's; nothing else changes |
| Places.PatchTwice | castro-park-discover/scripts/ingest-tripadvisor.js:299-306 | spreading the same patch twice is spreading it once |
| Uri.EncodeUriComponent | castro-park-discover/scripts/ingest-googlemaps.js:207 | the encoding is never shorter than its input and holds only URI-safe characters |
| Uri.EncodeEmptyIff | castro-park-discover/scripts/ingest-googlemaps.js:207 | an id encodes to the empty text exactly when it is empty |
| Uri.EncodeConcat | castro-park-discover/scripts/ingest-googlemaps.js:207 | encoding works character by character: it distributes over concatenation |
| Uri.EncodeUnreserved | castro-park-discover/scripts/ingest-googlemaps.js:207 | a text of unreserved characters is left as it is |
| Uri.EncodeGrowsOnReserved | castro-park-discover/scripts/ingest-googlemaps.js:207 | a text with a reserved character, an already encoded `%` among them, changes under encoding |
| Uri.EncodeReservedGrows | castro-park-discover/scripts/ingest-googlemaps.js:207 | a reserved character is never copied as it is: it becomes a `%` escape of at least three characters |

## Left out

- Network calls are not modelled; each script receives the provider's answers as input. This covers:
  - the Apify actor runs and `fetchAllDatasetItems` pagination;
  - the Google Places details calls, photo-redirect calls and text-search calls;
  - the RapidAPI search;
  - the HTML scraping of `fetchPlaceDetails`;
  - the `try`/`catch` around a details call that throws.
- File and process I/O are not modelled; the model takes and returns documents as values. This covers:
  - reading and writing `places.json` and the reports;
  - reading `.env`;
  - `process.exit` on a missing credential;
  - console logging.
- Pacing is not modelled: `sleep`/`setTimeout`. The retry loops still return the pauses they would take.
- The clock is a parameter, `Env.nowMs` and `Env.nowIso`. `Date.now()` and `toISOString()` are not computed.
- Floating-point arithmetic is not modelled; numbers are Dafny reals. These become parameters:
  - the haversine distance (`Env.distanceFromHotel`);
  - number-to-text (`Env.numberText`);
  - `Math.log10` and `toFixed(2)` in `scorePlace` (`Curation.Numerics`). `Curation.ScoreMonotone` assumes only that both are monotone.
  - NaN and the infinities become `None`.
- SQLite details are not modelled: the schema DDL and ALTERs, prepared statements and the statistics queries. The table is a sequence of rows. That gives `ORDER BY` on equal keys a fixed tie order, insertion order, which SQLite does not promise.
- The worker pools of `enrichCoordsFromOpenMap` (`ingest-merged.js`) and `enrichPlaces` (`ingest-tripadvisor.js`) are not modelled: the actor runs, the page fetches, the HTML scraping and the concurrency. What they do to records is modelled:
  - `IngestMerged.GeocodeMap` takes the finished lookups in the order they finished, as a parameter. That order decides which answer wins when two names normalize alike.
  - `IngestTripAdvisor.EnrichPlaces` takes the page reader as a function `fetch` of the source URL. Each record is visited by one worker only, so the order of the visits does not matter. The source assigns the fields of the visited objects in place; the model returns the updated list.
- `encodeURIComponent` is modelled on Unicode scalar values, so the lone surrogates on which JavaScript throws cannot occur.
- `URLSearchParams` form encoding is the parameter `encode` in `Maps`.
- `toLowerCase`/`toUpperCase` are modelled for ASCII and the Latin-1 letters only. Three Latin-1 letters keep their case in the model, because their JavaScript upper case leaves Latin-1 or grows: `ß` (JavaScript gives `SS`, two characters), `ÿ` (JavaScript gives `Ÿ`, U+0178) and `µ` (JavaScript gives `Μ`, U+039C). `Text.Upper` therefore keeps the length of every text, which JavaScript does not do for `ß`.
- `normalize("NFD")` followed by the removal of combining marks is modelled for the lower-case Latin-1 letters only.
- Regular-expression tests are substring tests. This is exact for the alternations of plain words the scripts use, and for `[eé]`-style classes written out as alternatives.
- `Number(text)` is modelled for decimal notation only. Exponents, hexadecimal and `Infinity` read as NaN.
- `JSON.stringify` in the Apify `updated` test is modelled as equality of the five compared fields.
- GoogleMapsItem.ImageUrl: an `images` object without a `url` reads as the empty URL. `ingest-googlemaps.js` (`img.url || img`) would push the object itself into the gallery, which the text-only gallery cannot hold.
- Places.ApplyPatch: an override may set seventeen fields, the ids included. An override key for any other field is not modelled: price level and text, distance, email, hours, source URL, open status, menu, categories, origin queries, subcategories, the timestamps and the hotel score.
- IngestGoogleMaps.NormalizePlace: the open status is kept as the hours list or the flag. Writing it to the text column as written throws; that is `SaveOrThrow` and `IngestAsWritten` under "## Findings". `Ingest` models the corrected loop, in which the value is stored.
- `null` and `undefined` in place records are one `None`; `""` stands for every falsy string where only truthiness is read.
- JSON `null` in a provider's number field is not a separate value. `Number(null)` is 0, so the models are exact only when a `null` reaching `Number` or `||` is given as `Some(0.0)`, and a `null` reaching `??` as `None`. This concerns the coordinates and counts read at ingest-googlemaps.js:209-213, ingest-massive.js:172-176, ingest-localbusiness.js:101-103 and ingest-openmap.js:97-99. The text `"null"` that `${null}` puts into the coordinate fallback of `IngestOpenMap.ItemId` cannot be represented.
- GoogleMapsItem.GmItem: `categories` holds texts only. `ingest-complete.js` (line 205) also reads the `name` of an object entry, and `ingest-simple.js` (line 160) pushes object entries into the tags as they are; neither kind of entry can be represented.
- `IngestMerged.MergePlaces` works on values. The source changes each matched TripAdvisor record in place. The only observable effect of that mutation is the returned list, which the model gives.
- `EnrichGooglePlaces.Enrich` works on values. The source assigns the fields of the place objects in `doc.places` one by one. No object is shared between two positions, so the written document is the same.
- All UI outside the gallery and list logic is not modelled: rendering, routing, the carousel state, `usePlaces` and the build configuration.
- `EnrichGooglePlaces.Scan`, `EnrichGooglePlaces.EnrichAll`: the functions' own ensures state only the number of places; what the loop does to each place and to the counters is stated in `ScanCounts`, `ScanKeeps`, `EnrichAllCounts`, `EnrichAllKeeps` and `AfterLimit`.
- `EnrichApifyMaps.MergeItem`, `EnrichApifyMaps.NewFromItem`: the functions' own ensures state only the keys; the field-by-field contracts are `MergeItemFields` and `NewFromItemFields`.

## Findings

| source | as written | input that shows it | evidently intended | confidence | as-written member | corrected member |
|---|---|---|---|---|---|---|
| castro-park-discover/scripts/ingest-googlemaps.js:262-304 | the existing row is looked up by `id` or `source_id`, but the update runs `WHERE id = place.id` with the incoming id | a row written by `ingest-massive.js` with id and source id both `a%20b`, and a Google Maps item whose place id is the text `a%20b`, so its id is `a%2520b`. The lookup finds the row through its source id. The update matches no row, yet the record is counted as updated | update the row the lookup found | not executed; high for the input shown | IngestGoogleMaps.SaveAsWritten, IngestGoogleMaps.LostUpdateExample | IngestGoogleMaps.Save |
| castro-park-discover/scripts/ingest-googlemaps.js:254-300 | `openStatus` is `item.openingHours \|\| item.isOpen \|\| null`: an array, or `true`. Both are bound into the `open_status` column of the insert and of the update. The statement driver binds only numbers, strings, bigints, buffers and `null`, so `run` throws. The `catch` of the query loop then drops every later item of that query | an empty table and a query whose first titled item has `openingHours` (any array, even an empty one), followed by a second titled item. Neither item is stored or counted | write the hours as text, as the other list columns are, so that every titled item is saved | not executed; high if the driver refuses arrays and booleans, as its documentation says | IngestGoogleMaps.SaveOrThrow, IngestGoogleMaps.IngestAsWritten, IngestGoogleMaps.HoursEndQuery, IngestGoogleMaps.HoursEndQueryExample | IngestGoogleMaps.Ingest |

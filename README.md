# Petit Naka — a verified model of the site's logic

Petit Naka is a single-page web site for a Japanese restaurant. Most of it is markup. This project models in Dafny the parts that compute something:

- **Menu wheel carousel** on the menu page (`CarteWheel`, `CarteLayout`, `CarteImages`):
  - wheel and touch gestures accumulate until they reach a threshold, then step the active dish once;
  - a re-entrancy guard is armed on each step and released by a 600 ms timer;
  - a category switch resets the wheel;
  - each dish is laid out on an arc, and distant dishes are culled;
  - each dish name is mapped to a picture.
- **JSON validators** for restaurant and menu data (`Validation`), over a small JSON value type (`JsValues`).
- **Schema.org structured data** (`StructuredData`, `JsonLd`):
  - French opening hours become Schema.org day codes;
  - the WebSite, Restaurant, BreadcrumbList and FoodEstablishment records are built;
  - every JSON-LD script in the document head is replaced.
- **SEO head** (`SeoHead`, `DocumentHead`):
  - the page title and the description, Open Graph and Twitter strings for each route;
  - the find-or-create upsert of meta and link tags into the document head.
- **Restaurant selection** (`RestaurantContext`): the selected id and the modal flag, initialised from and persisted to a key–value store.
- **Home dish carousel** (`Home`): modular next/previous, swipe release with a strict 50-pixel threshold, drag bookkeeping, the autoplay tick, and the scroll-progress clamp behind the bowl animation.
- **Bundle chunk classifier** (`ViteConfig`): the ordered substring tests of the build's `manualChunks`.
- **Opening-hours rows** (`OpeningHoursView`) and the November 2025 reservation calendar (`Reservation`).

Code that updates state step by step is modelled imperatively:

- The wheel carousel, the dish carousel and the restaurant provider are classes.
- The document head is a class whose node list the structured-data and SEO methods rewrite.
- The menu validator and the calendar builder are loops.

Each method is proved against a pure function, and the properties of the site are lemmas about those functions. Timers, storage, the DOM, the environment variable and bundled JSON are explicit events or parameters.

## Model

| member | source | states |
|---|---|---|
| CarteWheel.Initial | src/pages/Carte.jsx:177-180 | The wheel starts at index 0 with no accumulated delta, the guard off and no pending timer. |
| CarteWheel.Direction | src/pages/Carte.jsx:210 | The step direction is -1 exactly when the accumulated delta is positive, otherwise +1 (the inverted direction). |
| CarteWheel.Accumulate | src/pages/Carte.jsx:205-228 | Adding a delta keeps the wheel well formed, keeps the index in [0, n) when it was, and leaves the item count and touch anchor unchanged. |
| CarteWheel.OnWheel | src/pages/Carte.jsx:200-229 | A wheel event keeps the wheel well formed, and keeps the index in [0, n) when it was. |
| CarteWheel.OnTouchStart | src/pages/Carte.jsx:231-233 | Touch start only records the touch's y coordinate. |
| CarteWheel.OnTouchMove | src/pages/Carte.jsx:235-266 | A touch move keeps the wheel well formed, and keeps the index in [0, n) when it was. |
| CarteWheel.OnTimerFired | src/pages/Carte.jsx:225-227 | A pending timer clears the guard and is consumed; without one, nothing changes. |
| CarteWheel.OnItemsChangedAsWritten | src/pages/Carte.jsx:274-283 | As written, a change of item count cancels the timer but keeps the guard as it was. |
| CarteWheel.OnItemsChanged | src/pages/Carte.jsx:274-283 | Corrected: a change of item count cancels the timer and also clears the guard. |
| CarteWheel.OnCategoryReset | src/pages/Carte.jsx:183-188 | The category reset sets the index and the accumulator to 0 and leaves the guard and the timer alone. |
| CarteWheel.Apply | src/pages/Carte.jsx:183-283 | Every event keeps the wheel well formed (at least one item, index >= 0); every event but a count change keeps the index in [0, n), and the category reset always restores it. |
| CarteWheel.CountChangeUnsettles | src/pages/Carte.jsx:183-283 | A switch from 5 to 3 items with the index on item 4 leaves it past the end until the category reset brings it back to 0. |
| CarteWheel.Run | src/pages/Carte.jsx:183-283 | Any sequence of events keeps the wheel well formed (index >= 0); a sequence without a count change keeps the index in [0, n). |
| CarteWheel.ApplyAsWritten | src/pages/Carte.jsx:183-283 | The as-written event handler keeps the wheel well formed too, and keeps the index in [0, n) under every event but a count change. |
| CarteWheel.RunAsWritten | src/pages/Carte.jsx:183-283 | The as-written handler keeps the wheel well formed over any event sequence. |
| CarteWheel.GestureStepsOnce | src/pages/Carte.jsx:209-227 | Reaching the threshold of 80 moves the index exactly one step modulo n (back for a positive total, forward otherwise), zeroes the accumulator, arms the guard and schedules the timer. |
| CarteWheel.NoStepBelowThreshold | src/pages/Carte.jsx:196-218 | Below the threshold only the accumulator changes; any index change comes with a zero accumulator and an armed guard and timer. |
| CarteWheel.GuardDropsInput | src/pages/Carte.jsx:203-238 | While the guard is set, wheel and touch-move input change nothing at all. |
| CarteWheel.OnlyTimerReleasesGuard | src/pages/Carte.jsx:203-264 | Without a timer event or a count change, the guard stays set and the index stays put or returns to 0, over any event sequence. |
| CarteWheel.GuardAlwaysReleasable | src/pages/Carte.jsx:218-281 | In the corrected model, whenever the guard is set a timer is pending, over any event sequence, so the next timer always releases it. |
| CarteWheel.GuardStuckAsWritten | src/pages/Carte.jsx:178-281 | As written, a guard left set without a timer stays set forever, and the index can never step again. |
| CarteWheel.SwitchDuringCooldown | src/pages/Carte.jsx:209-281 | A step on 5 items followed by a switch to 3 items leaves the guard stuck as written and released after the correction. |
| CarteWheel.WheelCarousel.constructor | src/pages/Carte.jsx:175-180 | A new carousel holds the initial wheel state. |
| CarteWheel.WheelCarousel.AccumulateDelta | src/pages/Carte.jsx:205-228 | Updates the fields in place to the state that Accumulate gives. |
| CarteWheel.WheelCarousel.HandleWheel | src/pages/Carte.jsx:200-229 | Updates the fields in place to the state that OnWheel gives. |
| CarteWheel.WheelCarousel.HandleTouchStart | src/pages/Carte.jsx:231-233 | Updates the fields in place to the state that OnTouchStart gives. |
| CarteWheel.WheelCarousel.HandleTouchMove | src/pages/Carte.jsx:235-266 | Updates the fields in place to the state that OnTouchMove gives. |
| CarteWheel.WheelCarousel.TimerFired | src/pages/Carte.jsx:225-227 | Updates the fields in place to the state that OnTimerFired gives. |
| CarteWheel.WheelCarousel.ItemsChangedAsWritten | src/pages/Carte.jsx:274-283 | Updates the fields in place to the state that OnItemsChangedAsWritten gives: the timer is cleared and the guard kept. |
| CarteWheel.WheelCarousel.ItemsChanged | src/pages/Carte.jsx:274-283 | Updates the fields in place to the state that the corrected OnItemsChanged gives. |
| CarteWheel.WheelCarousel.CategoryReset | src/pages/Carte.jsx:183-188 | Updates the fields in place to the state that OnCategoryReset gives. |
| CarteLayout.RelativeIndexNormalised | src/pages/Carte.jsx:305-311 | The normalised relative index is congruent to index - current modulo n, lies in the closed range [-n/2, n/2], and is 0 exactly for the active item. |
| CarteLayout.RelativeIndex | src/pages/Carte.jsx:305-311 | The relative index differs from index - current by 0 or ±n, and lies in [-n/2, n/2] when the raw offset is under n. |
| CarteLayout.Layout | src/pages/Carte.jsx:315-347 | An item is drawn iff its relative index is within 3; a drawn item has opacity in [0.1, 1] and scale in [0.4, 1]. |
| CarteLayout.Drawn | src/pages/Carte.jsx:335-337 | The drawn items are exactly the positions whose relative index is within 3. |
| CarteLayout.BothHalvesReached | src/pages/Carte.jsx:307-310 | For even n both ends of the range occur: +2 and -2 for n = 4. |
| CarteLayout.ActiveItemLayout | src/pages/Carte.jsx:324-347 | The active item is drawn with rotation 0, opacity 1, scale 1 and zIndex 10. |
| CarteLayout.OtherItemLayout | src/pages/Carte.jsx:315-347 | An item is drawn iff its relative index is within 3. Another drawn item at distance d has opacity max(0.1, 1-0.3d) ≤ 0.7, scale max(0.4, 1-0.2d) ≤ 0.8, zIndex 5-d and rotation -30·rel. |
| CarteLayout.DrawnInWindow | src/pages/Carte.jsx:335-337 | Every drawn item lies in the window of 7 positions around the active item. |
| CarteLayout.RingPosition | src/pages/Carte.jsx:305-311 | Any of the three normalisation candidates points back to the same item modulo n. |
| CarteLayout.AtMostSevenDrawn | src/pages/Carte.jsx:335-337 | At most 7 items are drawn. |
| CarteLayout.SmallCategoriesDrawnWhole | src/pages/Carte.jsx:305-337 | A category of at most 7 items is drawn in full. |
| CarteImages.FirstMatch | src/pages/Carte.jsx:456-460 | Returns the earliest table key contained in the name, or none when no key is contained. |
| CarteImages.Fallback | src/pages/Carte.jsx:463-475 | A category fallback exists exactly when the category is one of the listed ones. |
| CarteImages.FallbackFrom | src/pages/Carte.jsx:463-475 | The fallback search finds an entry exactly when the category occurs in the rest of the table, and returns that entry's image. |
| CarteImages.GetItemImage | src/pages/Carte.jsx:400-476 | The image is that of a key occurring in the lower-cased name; only when no key occurs is it the category fallback or the plate emoji. |
| CarteImages.EarliestKeyWins | src/pages/Carte.jsx:401-460 | getItemImage returns the image of the earliest key, in table order, that is a substring of the lower-cased name. |
| CarteImages.FallbackOnlyWithoutMatch | src/pages/Carte.jsx:456-475 | Without a key match the category fallback is used, and an unknown category gives the default plate emoji. |
| Strings.ToLower | src/pages/Carte.jsx:401 | Lower-casing keeps the length and maps each character by LowerChar: A–Z and the Latin-1 capitals À–Þ (except ×) are lowered, every other character is kept (see Left out). |
| Validation.RestaurantFieldsPresent | src/utils/validation.js:9-10 | The field check holds iff all seven required fields are neither undefined nor null. |
| Validation.MenuItemFieldsPresent | src/utils/validation.js:28-29 | The field check holds iff name and price are neither undefined nor null. |
| Validation.ValidateRestaurant | src/utils/validation.js:6-20 | True iff the record is an object, every required field is present, and openingHours is falsy or an object. |
| Validation.ValidateMenuItem | src/utils/validation.js:25-39 | True iff the item is an object with name present and a numeric price ≥ 0. |
| Validation.ValidateRestaurantsData | src/utils/validation.js:44-49 | True iff data.restaurants is an array whose every element is a valid restaurant. |
| Validation.ValidateMenuData | src/utils/validation.js:54-79 | The nested loops return exactly the specification MenuDataOk: a non-empty object whose menus are objects of arrays of valid items. |
| Validation.MenuDataOk | src/utils/validation.js:54-79 | Accepted data is an object or an array (typeof "object") with at least one entry. |
| Validation.MenuDataRejectsEmpty | src/utils/validation.js:55-59 | A non-object, null, or an object or array with no keys is rejected. |
| Validation.MenuDataAcceptsEmptyMenus | src/utils/validation.js:62-78 | A restaurant with no categories, or with an empty category, passes. |
| Validation.ZeroPriceAccepted | src/utils/validation.js:33-36 | Price 0 passes, while price -1 and the string "0" are rejected. |
| JsValues.TypeOf | src/utils/validation.js:15 | typeof gives "object" exactly for null, arrays and objects. |
| JsValues.Entries | src/components/StructuredData.jsx:33 | Object.entries gives an object's fields in order, an array's elements by index, and [] for booleans and numbers (every call site guards null and undefined, where JavaScript throws). |
| JsValues.Truthy | src/utils/validation.js:7-15 | Arrays and objects are truthy, even empty; undefined and null never are. |
| JsValues.Get | src/utils/validation.js:9-10 | Reading a property of anything but an object gives undefined. |
| JsValues.ToText | src/components/StructuredData.jsx:81 | String() of a string is itself; of anything but a string or an array it is never empty. |
| JsValues.ElementText | src/components/OpeningHours.jsx:16 | In a join, null and undefined elements become empty, and a truthy non-array element never does. |
| ViteConfig.ManualChunks | vite.config.js:24-56 | Undefined exactly for ids outside node_modules; otherwise one of the eight chunk names. |
| ViteConfig.ReactThreeNamesContainThree | vite.config.js:28-36 | Both @react-three package names contain "three". |
| ViteConfig.ReactThreeChunksUnreachable | vite.config.js:28-36 | A node_modules id containing "three" goes to "three"; "react-three-fiber" and "react-three-drei" are never returned. |
| ViteConfig.RouterBeforeReact | vite.config.js:38-52 | A router id lands in "react-router" (or "three"), never in the React core, DOM or vendor chunks. |
| ViteConfig.ReactTestsContainReact | vite.config.js:38-52 | Every later React test string contains "react". |
| ViteConfig.UnmatchedDependencyIsVendor | vite.config.js:53-54 | A node_modules id with neither "three" nor "react" goes to "vendor". |
| ViteConfig.ManualChunksIntended | vite.config.js:25-56 | The corrected classifier is undefined exactly outside node_modules and otherwise returns a known chunk name. |
| ViteConfig.IntendedSeparatesReactThree | vite.config.js:25-36 | The corrected classifier sends fiber and drei to their own chunks and agrees with the original everywhere else. |
| ViteConfig.FiberPackageExample | vite.config.js:28-33 | Any id containing node_modules/@react-three/fiber goes to "three" as written and to "react-three-fiber" after the correction. |
| DocumentHead.BaseUrl | src/components/StructuredData.jsx:8 | The base URL is the environment value when set, otherwise the Netlify default, and is never empty. |
| StructuredData.DayCode | src/components/StructuredData.jsx:23-35 | A day code exists exactly for the seven French day names and is one of the seven Schema.org codes. |
| StructuredData.DayCodeInjective | src/components/StructuredData.jsx:23-31 | Distinct French day names get distinct codes. |
| StructuredData.DayCodeShape | src/components/StructuredData.jsx:23-31 | Every code has two characters and no space or hyphen. |
| StructuredData.SlotTexts | src/components/StructuredData.jsx:42 | Defined iff every slot is a string; then one "code slot" text per slot with the first en dash replaced. |
| StructuredData.FormatDay | src/components/StructuredData.jsx:33-45 | A day is dropped iff its name is unknown, its hours are not a non-empty array, or the first slot is "Fermé"; it fails iff a later slot is not a string. A kept day's line is its slot texts "code slot" (first en dash made a hyphen) joined by ", ", so it starts with its day code. |
| StructuredData.FormatEntries | src/components/StructuredData.jsx:33-45 | Fails iff some entry has a non-string slot; otherwise the lines are exactly the kept days' lines in entry order (KeptTexts of the per-entry outcomes), no more than entries, each starting with a day code. |
| StructuredData.KeptTexts | src/components/StructuredData.jsx:33-45 | No more lines than outcomes, and a text is a line exactly when some entry was kept with that text. |
| StructuredData.FormatOpeningHours | src/components/StructuredData.jsx:20-46 | Missing hours give []; otherwise the lines are the kept days' lines in key order, no more than keys, each starting with a day code. |
| Strings.ReplaceFirst | src/components/StructuredData.jsx:42 | A string without the character is unchanged; otherwise the result is the text before its first occurrence, the replacement, and the text after it. |
| Strings.ReplaceFirstRemovesOne | src/components/StructuredData.jsx:42 | Replacing removes exactly one occurrence of the character. |
| StructuredData.RangeSpec | src/components/StructuredData.jsx:86-92 | The record carries the day code; a range without '-' gives opens = range and no closes. |
| StructuredData.SpecOfAsWritten | src/components/StructuredData.jsx:85-92 | As written, a formatted line yields a record iff it contains a space. |
| StructuredData.SpecsAsWritten | src/components/StructuredData.jsx:84-93 | As written, fails iff some formatted line fails the space split; otherwise one record per line, record k being the split of line k (day, opens, closes). |
| StructuredData.FormattedSpecAsWritten | src/components/StructuredData.jsx:42-92 | Every formatted line yields a record whose dayOfWeek is its day code. |
| StructuredData.SpecsAsWrittenTotal | src/components/StructuredData.jsx:84-93 | As written, records exist for every formatted list, one per line. |
| StructuredData.SlotSpec | src/components/StructuredData.jsx:86-92 | Corrected: each slot gives a record for its own day. |
| StructuredData.DaySpecs | src/components/StructuredData.jsx:33-45 | Corrected: a kept day gives one record per slot, a dropped day none, and it fails exactly where the formatting fails. |
| StructuredData.SpecsFollowFormatting | src/components/StructuredData.jsx:33-93 | The corrected records fail iff the formatting fails, are empty iff it is empty, and are never fewer than the formatted lines. |
| StructuredData.SpecsFollowFormattedHours | src/components/StructuredData.jsx:20-93 | The same agreement between the corrected records and formatOpeningHours, for a whole openingHours value. |
| StructuredData.HoursSpecifications | src/components/StructuredData.jsx:84-93 | The corrected records fail exactly when formatOpeningHours fails, and every record has a valid day code. |
| StructuredData.SingleSlotAgrees | src/components/StructuredData.jsx:42-92 | For a day with one slot without spaces, the as-written and the corrected records agree. |
| StructuredData.TwoSlotsFormatted | src/components/StructuredData.jsx:42 | Two slots become one line joined by ", ". |
| StructuredData.TwoSlotsCorrected | src/components/StructuredData.jsx:84-93 | Corrected: a two-slot day gives two records. |
| StructuredData.TwoSlotsSplitAsWritten | src/components/StructuredData.jsx:85-86 | As written, splitting the joined line on spaces gives closes = first closing time + ",". |
| StructuredData.PlainSlotSpec | src/components/StructuredData.jsx:86 | A plain "open-close" slot splits into its opening and closing times. |
| StructuredData.TwoSlotsAsWritten | src/components/StructuredData.jsx:42-93 | As written, a two-slot day yields a single record whose closes has a trailing comma, and the second slot is lost. The corrected builder yields both slots. |
| StructuredData.NotFerme | src/components/StructuredData.jsx:38 | An "open-close" slot is never "Fermé". |
| StructuredData.NoEnDash | src/components/StructuredData.jsx:42 | A slot without an en dash is left unchanged. |
| StructuredData.HoursMember | src/components/StructuredData.jsx:84-93 | As written: openingHoursSpecification is absent iff the formatted list is empty; otherwise record k is the space split of formatted line k (one record per line, each with a valid day code), as the program builds it. |
| StructuredData.HoursMemberCorrected | src/components/StructuredData.jsx:84-93 | Corrected: absent iff the formatted list is empty; otherwise at least one record per formatted line, each with a valid day code. |
| StructuredData.TwoSlotsMemberAsWritten | src/components/StructuredData.jsx:42-93 | For a two-slot day the program's member holds one record whose closes ends in ","; the corrected member holds both slots. |
| StructuredData.WebSiteSchema | src/components/StructuredData.jsx:49-63 | The WebSite record has url = base, and its search template starts with base. |
| StructuredData.RestaurantSchema | src/components/StructuredData.jsx:66-95 | A Restaurant record is built exactly for the restaurants whose hours format; it carries the restaurant's name, address and telephone, the url base + "/carte?name=" + id, and HoursMember's as-written hours records. |
| StructuredData.LocalBusinessSchema | src/components/StructuredData.jsx:135-167 | A FoodEstablishment record is built exactly when the hours format; it carries image base + "/logo.webp", the restaurant's name, address and telephone, the url base + path + "?name=" + id, and HoursMember's as-written hours records. |
| StructuredData.LocalBusinessMatchesRestaurant | src/components/StructuredData.jsx:66-167 | Both records agree on name, address, telephone and hours, and on the URL when the path is /carte. |
| StructuredData.PageName | src/components/StructuredData.jsx:111-115 | The breadcrumb name is "Page" exactly for paths other than the five known routes. |
| StructuredData.Breadcrumb | src/components/StructuredData.jsx:98-119 | "/" gives one item; any other path adds item 2, named from the path, with base + path; positions count from 1. |
| StructuredData.WithoutLdJson | src/components/StructuredData.jsx:16-17 | Removing scripts leaves no JSON-LD node and never lengthens the head. |
| StructuredData.ConcatNodes | src/components/StructuredData.jsx:16-17 | Script removal and script counting distribute over concatenation. |
| StructuredData.NoLdJsonFixed | src/components/StructuredData.jsx:16-17 | A head without scripts is left unchanged. |
| StructuredData.AllLdJson | src/components/StructuredData.jsx:16-17 | A head made only of scripts is emptied. |
| StructuredData.Scripts | src/components/StructuredData.jsx:122-127 | One JSON-LD node per record, in order. |
| StructuredData.RestaurantSchemas | src/components/StructuredData.jsx:66-95 | One Restaurant record (with the as-written hours) per restaurant, in order: record k is the record of restaurant k. |
| StructuredData.RestaurantSchemasFailAt | src/components/StructuredData.jsx:66-95 | One restaurant whose hours fail makes the whole map fail. |
| StructuredData.ScriptsSnoc | src/components/StructuredData.jsx:122-131 | Appending one record appends one script. |
| StructuredData.AppendedRecords | src/components/StructuredData.jsx:130-167 | WebSite first, then one Restaurant per restaurant, then the breadcrumb, then a FoodEstablishment iff a restaurant is selected; the hours records are the program's as-written ones. |
| StructuredData.ScriptCount | src/components/StructuredData.jsx:16-167 | The effect keeps every other head node and leaves exactly restaurants + 2 scripts, plus one when a restaurant is selected. |
| StructuredData.EffectRepeatable | src/components/StructuredData.jsx:14-168 | Running the effect twice with the same inputs gives the same head as running it once. |
| StructuredData.EffectResult | src/components/StructuredData.jsx:16-167 | After a run the head keeps its other children, in order, at the front, and every node after them is a script: the old scripts are gone. |
| StructuredData.RemoveLdJson | src/components/StructuredData.jsx:16-17 | The loop removes exactly the JSON-LD nodes in place and keeps the title. |
| StructuredData.BuildRestaurantSchemas | src/components/StructuredData.jsx:66-95 | The loop computes the restaurant records that RestaurantSchemas specifies. |
| StructuredData.AppendScripts | src/components/StructuredData.jsx:122-132 | The loop appends one script per record, in order. |
| StructuredData.ReplaceStructuredData | src/components/StructuredData.jsx:14-168 | The head after the effect is the one EffectResult specifies, with the records as the program builds them (as-written hours). |
| SeoHead.PageLabel | src/components/SEOHead.jsx:46-75 | A page label exists exactly for /carte, /a-emporter, /reservation and /contact. |
| SeoHead.TitleShape | src/components/SEOHead.jsx:42-78 | Every title ends with the base title; "/" and unknown paths get exactly the base title. |
| SeoHead.TitleNamesSelection | src/components/SEOHead.jsx:50-69 | The four labelled routes give "Label - name \| base" with a selection and "Label \| base" without one. |
| SeoHead.HistoryTitleIgnoresSelection | src/components/SEOHead.jsx:70-71 | /histoire gives "Notre Histoire \| base" whatever is selected. |
| SeoHead.Describe | src/components/SEOHead.jsx:82-86 | A description ends with the default text and gets the restaurant prefix exactly when personalised. |
| SeoHead.ShareTitle | src/components/SEOHead.jsx:99-133 | The og:title and twitter:title are "name \| base" when personalised and exactly the base title otherwise; both end with the base title. |
| SeoHead.TakeAwayNotPersonalised | src/components/SEOHead.jsx:84-127 | /a-emporter is never personalised, whatever is selected. |
| SeoHead.HeadTags | src/components/SEOHead.jsx:88-155 | The effect writes 15 tags. |
| SeoHead.HeadValues | src/components/SEOHead.jsx:88-155 | One value per selector the effect writes. |
| SeoHead.HeadTagsSelectors | src/components/SEOHead.jsx:88-155 | Whatever the page and selection, the effect writes the same 15 selectors in the same order. |
| SeoHead.HeadSelectorsDistinct | src/components/SEOHead.jsx:88-146 | No selector is written twice. |
| SeoHead.Title | src/components/SEOHead.jsx:42-78 | Every document title ends with the base title. |
| SeoHead.SharedValuesAgree | src/components/SEOHead.jsx:93-135 | The canonical link and og:url are both base + path, and the Open Graph and Twitter title, description and image agree. |
| SeoHead.FindTag | src/components/SEOHead.jsx:17-32 | querySelector finds the first node with the key, or none. |
| SeoHead.Upsert | src/components/SEOHead.jsx:15-39 | An upsert appends a node exactly when no node matches, and keeps every node other than the first match. |
| SeoHead.UpsertEffect | src/components/SEOHead.jsx:15-39 | An upsert appends a node only when none matches, rewrites only the matching node, and leaves the key with the value. |
| SeoHead.FindAfter | src/components/SEOHead.jsx:18-25 | An appended tag is found at the end. |
| SeoHead.FindReplaced | src/components/SEOHead.jsx:27 | A rewritten tag is still the first match. |
| SeoHead.FindUnique | src/components/SEOHead.jsx:17 | The first node with the key is the one found. |
| SeoHead.UpsertNoOp | src/components/SEOHead.jsx:15-39 | Upserting a value the key already holds changes nothing. |
| SeoHead.UpsertKeeps | src/components/SEOHead.jsx:15-39 | Upserting one key keeps every other key's value. |
| SeoHead.UpsertAllHolds | src/components/SEOHead.jsx:149-155 | After upserting tags with distinct keys, every key holds its value. |
| SeoHead.UpsertAllNoOp | src/components/SEOHead.jsx:149-155 | Upserting tags that already hold changes nothing. |
| SeoHead.HeadTagsDistinct | src/components/SEOHead.jsx:88-146 | The 15 tags have distinct keys. |
| SeoHead.HeadTagsIdempotent | src/components/SEOHead.jsx:13-156 | Re-running the effect with the same inputs adds no nodes and changes nothing. |
| SeoHead.SetTag | src/components/SEOHead.jsx:15-39 | Updates the head in place to the state that Upsert gives. |
| SeoHead.SetTags | src/components/SEOHead.jsx:149-155 | Upserts the tags in order. |
| SeoHead.UpdateHead | src/components/SEOHead.jsx:13-156 | Sets the title and upserts the 15 tags. |
| RestaurantContext.StoredValue | src/contexts/RestaurantContext.jsx:18 | localStorage.getItem returns the stored value exactly when the key is present. |
| RestaurantContext.FindById | src/contexts/RestaurantContext.jsx:21 | Finds the first restaurant with the id, or reports that none has it. |
| RestaurantContext.InitialSelectedId | src/contexts/RestaurantContext.jsx:17-28 | The initial id is the stored id iff some restaurant has it, and null otherwise. |
| RestaurantContext.InitialShowModal | src/contexts/RestaurantContext.jsx:30-44 | The modal starts shown exactly when the stored id is missing, empty or unknown. |
| RestaurantContext.InitialModalMatchesSelection | src/contexts/RestaurantContext.jsx:17-44 | At start the modal shows iff no restaurant is selected. |
| RestaurantContext.Persist | src/contexts/RestaurantContext.jsx:47-51 | The store is written only for a truthy id, and is left unchanged otherwise. |
| RestaurantContext.SelectedRestaurant | src/contexts/RestaurantContext.jsx:58-61 | Null without an id, undefined for an unknown id, and the first match for a known id. |
| RestaurantContext.SelectedRestaurantTruthy | src/contexts/RestaurantContext.jsx:58-61 | The selected restaurant carries the selected id when known, and is falsy otherwise. |
| RestaurantContext.RestaurantProvider.Selected | src/contexts/RestaurantContext.jsx:58-71 | The exposed selectedRestaurant carries the selected id when known, and is falsy otherwise. |
| RestaurantContext.RestaurantProvider.constructor | src/contexts/RestaurantContext.jsx:14-51 | The provider starts from the lazy initialisers, and the store is persisted once. |
| RestaurantContext.RestaurantProvider.SelectRestaurant | src/contexts/RestaurantContext.jsx:53-56 | Sets the id without checking it, closes the modal, and persists. |
| RestaurantContext.RestaurantProvider.OpenRestaurantModal | src/contexts/RestaurantContext.jsx:63-65 | Only shows the modal. |
| RestaurantContext.RestaurantProvider.SetShowModal | src/contexts/RestaurantContext.jsx:74 | Only sets the modal flag. |
| RestaurantContext.SelectSurvivesReload | src/contexts/RestaurantContext.jsx:17-56 | Selecting a known id and re-initialising yields that id with the modal hidden. |
| RestaurantContext.PersistNeverClears | src/contexts/RestaurantContext.jsx:47-51 | Persisting never removes the key and never touches other keys. |
| RestaurantContext.UnknownSelectionNotRestored | src/contexts/RestaurantContext.jsx:17-56 | An unknown id, even if persisted, is not restored, and the modal shows again. |
| Home.Next | src/pages/Home.jsx:54-56 | The next index is in [0, 6). |
| Home.Previous | src/pages/Home.jsx:50-52 | The previous index is in [0, 6). |
| Home.NextPreviousInverse | src/pages/Home.jsx:50-56 | Next and previous undo each other and wrap at the ends. |
| Home.ReleaseThreshold | src/pages/Home.jsx:70-87 | A release while not dragging changes nothing. Otherwise it resets the drag, goes to the next slide for a diff > 50, to the previous one for a diff < -50, and stays put otherwise. |
| Home.ThresholdIsStrict | src/pages/Home.jsx:76 | A diff of exactly ±50 does not change the slide. |
| Home.MoveAndTickGuards | src/pages/Home.jsx:38-68 | A move updates currentX only while dragging; the autoplay tick advances only while not dragging. |
| Home.RunStaysInRange | src/pages/Home.jsx:37-118 | Any sequence of carousel inputs keeps the index in [0, 6). |
| Home.ShowSlide | src/pages/Home.jsx:46-48 | goToSlide sets the index to the one asked, without a range check, and changes nothing else. |
| Home.Press | src/pages/Home.jsx:58-62 | A press starts a drag at x and keeps the slide. |
| Home.Move | src/pages/Home.jsx:64-68 | A move changes only currentX, and only while dragging. |
| Home.Release | src/pages/Home.jsx:70-87 | A release always ends the drag, moves at most one slide either way, changes nothing when not dragging, and keeps the index in range. |
| Home.Tick | src/pages/Home.jsx:38-42 | The autoplay tick changes only the index: to the next slide when not dragging, not at all while dragging. |
| Home.TranslateX | src/pages/Home.jsx:120-123 | Without a drag or width, the offset is -100·currentIndex. |
| Home.DragFollowsPointer | src/pages/Home.jsx:120-123 | Dragging one full width to the left shows the next slide's offset. |
| Home.DishCarousel.constructor | src/pages/Home.jsx:37-44 | A new carousel holds the initial state. |
| Home.DishCarousel.GoToSlide | src/pages/Home.jsx:46-48 | Updates the state in place to what ShowSlide gives. |
| Home.DishCarousel.GoToPrevious | src/pages/Home.jsx:50-52 | Updates the state in place to what ShowPrevious gives. |
| Home.DishCarousel.GoToNext | src/pages/Home.jsx:54-56 | Updates the state in place to what ShowNext gives. |
| Home.DishCarousel.HandleDown | src/pages/Home.jsx:58-62 | Updates the state in place to what Press gives. |
| Home.DishCarousel.HandleMove | src/pages/Home.jsx:64-68 | Updates the state in place to what Move gives. |
| Home.DishCarousel.HandleUp | src/pages/Home.jsx:70-87 | Updates the state in place to what Release gives. |
| Home.DishCarousel.AutoplayTick | src/pages/Home.jsx:38-42 | Updates the state in place to what Tick gives. |
| Home.ScrollProgress | src/pages/Home.jsx:236 | The progress is clamped to [0, 1] and equals -top/height inside the section; it is NaN only for 0/0. |
| Home.RatioBounds | src/pages/Home.jsx:236 | A ratio over a positive height is within [0, 1] exactly when the numerator is within [0, height]. |
| Home.PoseBounds | src/pages/Home.jsx:266-272 | Rotation stays in [0, 90], opacity in [0, 1], translateY in [0, 8] and scale in [1, 2]; opacity + rotation/90 = 1. |
| Home.Pose | src/pages/Home.jsx:266-272 | Opacity and rotation/90 always sum to 1, and scale is 1 + translateY/8. |
| OpeningHoursView.DayNamesMatchDayCodes | src/constants/index.js:4-12 | The display labels exist for exactly the seven day names that have codes, and are the names capitalised. |
| OpeningHoursView.DayName | src/constants/index.js:4-12 | A label has the day name's length, differs only in its first letter, and lower-cases back to the day name. |
| OpeningHoursView.HoursList | src/components/OpeningHours.jsx:15 | An array is kept as is; any other value becomes a one-element list. |
| OpeningHoursView.AnyClosed | src/components/OpeningHours.jsx:17 | A list is closed iff some slot is exactly "Fermé". |
| OpeningHoursView.RowOf | src/components/OpeningHours.jsx:14-30 | A row carries its day, the label from DAY_NAMES, the element texts of the hours list joined by ", ", and is closed iff some slot is "Fermé". |
| OpeningHoursView.Texts | src/components/OpeningHours.jsx:16 | One text per element of the hours list, each the element's join text. |
| OpeningHoursView.Render | src/components/OpeningHours.jsx:3-39 | Only the placeholder for missing or empty hours; otherwise one row per key, in key order. |
| OpeningHoursView.SingleValueRow | src/components/OpeningHours.jsx:15-17 | A plain string value is displayed as is and is closed iff it is "Fermé". |
| OpeningHoursView.TwoSlotRow | src/components/OpeningHours.jsx:16 | Two slots are displayed joined by ", ". |
| OpeningHoursView.ClosedRowsAgainstStructuredData | src/components/OpeningHours.jsx:17 | A day whose first slot is "Fermé" is shown closed and dropped from the structured data. |
| Reservation.GenerateCalendarDays | src/pages/Reservation.jsx:3-15 | Returns 35 cells: five empty cells, then days 1 to 30 in order. |
| Reservation.EachDayOnce | src/pages/Reservation.jsx:11-13 | Each day of the month appears exactly once, at cell 4 + d. |
| Reservation.DayOfWeek | src/pages/Reservation.jsx:5 | The weekday number is in [0, 7). |
| Reservation.MondayFirstColumn | src/pages/Reservation.jsx:18 | The Monday-first column is in [0, 7). |
| Reservation.GridMatchesCalendar | src/pages/Reservation.jsx:5-18 | Every day of the month lands in the column of its real weekday; 1 November 2025 is a Saturday, under "sam.". |

## Left out

- Trigonometric placement of wheel items (`Math.cos`/`Math.sin`, src/pages/Carte.jsx:317-321): angles are integer degrees, and x/y are not computed.
- Timers are explicit events. The wheel keeps at most one pending 600 ms timer, so re-arming replaces the earlier one. Durations and real time are not modelled.
- localStorage is a `map<string, string>` parameter. The bundled JSON data is a parameter too. The `VITE_BASE_URL` environment variable is a string, and the empty string stands for unset.
- The DOM: document.head is a list of nodes (tagged meta/link elements, JSON-LD scripts, other nodes). Scripts outside the head and JSON serialisation of the records are not modelled.
- Numbers in JSON values are integers. Fractional prices and the NaN that passes `typeof 'number'` in validateMenuItem are not modelled.
- Object keys keep insertion order. JavaScript's hoisting of integer-like keys is not modelled.
- dayMap and DAY_NAMES lookups only succeed for the seven day names. Keys that name inherited Object.prototype properties are not modelled.
- A read of a property of a missing restaurant yields undefined. The JavaScript TypeError on null entries is not modelled.
- Strings.ToLower: lowers only ASCII A–Z and the Latin-1 capitals À–Þ; JavaScript's toLowerCase lowers all of Unicode, and can change the length (İ becomes two characters).
- CarteImages.GetItemImage: the soup picture is a fixed stand-in path for the bundler-generated asset URL.
- CarteWheel.Initial: an empty item list (where `% 0` gives NaN) is excluded; the wheel needs at least one item.
- Home.PoseBounds follows the code: the source's comments say scale goes to 4 and translation to 10, but the code gives 2 and 8.
- The console.log calls in the showModal initialiser (src/contexts/RestaurantContext.jsx:32-42) are not modelled: they write to the console and change no state.
- JsValues.Lookup: a duplicated key reads its first occurrence, while JSON.parse keeps the last one; duplicate keys in the bundled JSON are not modelled.
- Home.Next and Home.Previous use Dafny's Euclidean `%`, which differs from JavaScript's truncating `%` only for a negative index; only goToSlide could set one, and its dots pass 0 to 5.
- JSX markup, CSS classes, scroll/resize listeners, requestAnimationFrame, the 3D model components, page transitions and the rest of the Vite configuration.

## Findings

| source | as written | input that shows it | evidently intended | confidence | as-written member | corrected member |
|---|---|---|---|---|---|---|
| src/pages/Carte.jsx:178, 274-281 | The effect cleanup cancels the 600 ms timer but does not reset isScrollingRef. The category reset at 183-188 does not reset it either. | One wheel step on a category of 5 items, then a switch to a category of 3 items before the timer fires: the guard stays set and all later wheel and touch input is dropped. | Clearing the timer should also release the guard. | not executed | CarteWheel.GuardStuckAsWritten | CarteWheel.GuardAlwaysReleasable |
| src/components/StructuredData.jsx:42, 85-86 | A day with two slots is joined into one string with ", " and then split on spaces. | lundi: ["11:30-14:30", "18:30-22:00"] gives closes "14:30,", and the 18:30-22:00 slot is lost. | One opening-hours record per slot, with clean times. | not executed | StructuredData.TwoSlotsMemberAsWritten | StructuredData.TwoSlotsCorrected |
| vite.config.js:28-36 | The "three" test comes before the @react-three tests, and both package names contain "three". | node_modules/@react-three/fiber/index.js goes to "three", not "react-three-fiber". | Separate react-three-fiber and react-three-drei chunks. | not executed | ViteConfig.ReactThreeChunksUnreachable | ViteConfig.IntendedSeparatesReactThree |

The structured-data effect builds the records as the program does (`StructuredData.HoursMember`, with the two-slot defect). The corrected records are `StructuredData.HoursMemberCorrected` and `StructuredData.HoursSpecifications`, which sit beside it.

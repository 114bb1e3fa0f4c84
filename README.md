# EcoBites core, modelled in Dafny

EcoBites is a food-product lookup application built with Next.js. Users search the Open Food Facts
catalog or photograph a product for AI nutrition analysis. They can also contribute products to a
shared database; an administrator reviews those contributions, and contributors earn points, levels
and badges.

This project models the application's sequential logic, one Dafny module per source file:

- **Catalog client** (`CatalogClient`, `CatalogRecords`). This covers the 5-minute cache and the
  pending-request registry of `searchProducts` / `getProductById`, and the normalisation of search
  hits and product payloads. Both registries are fields of a `Catalog` object. A request's promise is
  a number. The upstream reply arrives as a separate `SettleSearch` / `SettleProduct` event, and time
  is a millisecond parameter.
- **Search route** (`SearchRoute`). The route keeps its own registry keyed by the trimmed,
  lower-cased query. An entry is removed 1000 ms after its search settles; that removal is a
  deadline which `Tick` enforces.
- **Search bar** (`SearchBar`). The 800 ms debounce and the "don't re-fire the same normalised query"
  rule.
- **Contribution form** (`DatasetForm`). Image checks, the AI auto-fill merge, allergen parsing, the
  grade step function, the stored entry, submit and reset.
- **Admin panel and login** (`AdminSession`, `AdminLogin`, `AdminPanel`). The `localStorage` session
  keys, the 24-hour window, approving and rejecting contributions, and the point award.
- **Profile** (`Profile`). Points, level, level title and the ordered badge list.
- **Analyze route** (`AnalyzeRoute`). The request checks in order, the single model call, cleaning
  of Markdown fences and the status codes.
- **Pages and widgets** (`HomePage`, `ScannerPage`, `ImageAnalysis`, `ImageUpload`, `AuthForm`,
  `ScoreBadge`, `Toasts`).
- **JavaScript string operations** (`Text`): `trim`, ASCII case mapping, `includes`, `replace`,
  `split`, `join` and global fence stripping. `Wrappers` holds `Option`.

Network, Firestore, `localStorage`, the AI model and `JSON.parse` are outside the model. Their answers
are method parameters, such as `writeSucceeds`, `fetched`, `reply` and `parse`.

What the code does, as modelled:

- The analyze route calls one model once. It strips Markdown fences and parses the rest, returning the parsed JSON unchanged.
- Grades are not restricted to A–E. Catalog grades are any upper-cased string or `null`.
- Normalised catalog records carry eight nutrition values, `saturatedFat` included.
- A by-code lookup that finds no product fails with the generic fetch error.

## Model

| member | source | states |
|---|---|---|
| CatalogClient.SearchKey | src/lib/openfoodfacts.js:37 | the search key is "search:" followed by a trimmed text with no upper-case letter |
| CatalogClient.ProductKey | src/lib/openfoodfacts.js:124 | the product key is "product:" followed by the identifier, unchanged |
| CatalogClient.CacheEntryLifetime | src/lib/openfoodfacts.js:29-31 | `isCacheValid`: a missing entry is never valid; an entry is valid strictly before timestamp + 300000 ms, stale from then on, and never valid again once stale |
| CatalogClient.KeysNeverCollide | src/lib/openfoodfacts.js:22-24 | a search key never equals a product key, so the two kinds share one cache safely |
| CatalogClient.SearchKeyIgnoresCaseAndSpacing | src/lib/openfoodfacts.js:37 | queries differing only in case or surrounding white space get the same key |
| CatalogClient.SearchCompletion | src/lib/openfoodfacts.js:76-111 | a reply without `products` resolves to [] without caching or releasing the key; a reply with products caches and releases; an HTTP error releases without caching and is "Too many requests" exactly for 429, otherwise the generic search error |
| CatalogClient.ProductCompletion | src/lib/openfoodfacts.js:150-181 | the key is always released; the result is stored iff a body with a product and status other than 0 arrived, and is then the normalised product; every failure except HTTP 429 is the generic fetch error |
| CatalogClient.Catalog.constructor | src/lib/openfoodfacts.js:6-10 | both registries start empty |
| CatalogClient.Catalog.Begin | src/lib/openfoodfacts.js:39-48 | a valid hit returns the cached data and changes nothing; else a pending key returns the same promise and registers nothing; else exactly one new request is registered under the key |
| CatalogClient.Catalog.SearchProducts | src/lib/openfoodfacts.js:36-118 | the prologue above for the search key of the query; the cache and settled outcomes are unchanged; at most one request per key is in flight |
| CatalogClient.Catalog.GetProductById | src/lib/openfoodfacts.js:123-188 | the same prologue for the product key of the identifier |
| CatalogClient.Catalog.Complete | src/lib/openfoodfacts.js:91-103 | settling records the outcome, stores `{data, timestamp = now}` only when told to, and deletes the pending key only when told to |
| CatalogClient.Catalog.SettleSearch | src/lib/openfoodfacts.js:76-111 | the search reply's outcome, cache write and pending deletion are exactly those `SearchCompletion` prescribes |
| CatalogClient.Catalog.SettleProduct | src/lib/openfoodfacts.js:150-181 | the by-code reply always deletes the pending key and caches only a resolved product |
| CatalogClient.AtMostOneInFlight | src/lib/openfoodfacts.js:45-48 | in a valid catalog two unsettled requests for one key are the same request |
| CatalogClient.CoalescedSearches | src/lib/openfoodfacts.js:45-48 | two searches that normalise alike before any reply share one promise and one upstream call |
| CatalogClient.RepeatedSearch | src/lib/openfoodfacts.js:39-43 | a repeat within 5 minutes (strictly) is answered from the cache with no new call; at or after 5 minutes it issues a second call |
| CatalogClient.EmptyReplyPinsKey | src/lib/openfoodfacts.js:76-78 | after an empty reply a later search for the key gets the same promise, already settled to [], with no second upstream call |
| CatalogClient.RetryAfterFailure | src/lib/openfoodfacts.js:101-111 | a failed search releases its key, so the next search issues a fresh request; the error is 429-specific or generic |
| CatalogRecords.Grade | src/lib/openfoodfacts.js:87-88 | the grade is present iff the raw grade is a non-empty string, and is then exactly its upper-cased form |
| CatalogRecords.Summarise | src/lib/openfoodfacts.js:82-89 | id and name are the hit's code and name; brand is the hit's brand when non-empty, else 'Unknown Brand'; image is the hit's image when non-empty, else '/placeholder.svg'; the two grades are the hit's grades through `Grade` |
| CatalogRecords.SearchResults | src/lib/openfoodfacts.js:80-89 | no more results than hits; each has an id and a name and emitted grades |
| CatalogRecords.SearchResultsAppend | src/lib/openfoodfacts.js:80-81 | filtering and mapping keep response order: results of a concatenation are the concatenated results |
| CatalogRecords.SearchResultsMembership | src/lib/openfoodfacts.js:80-89 | a summary is listed iff some hit with both name and code maps to it |
| CatalogRecords.SearchResultsAllListed | src/lib/openfoodfacts.js:80-89 | when every hit has name and code nothing is dropped and position i holds the summary of hit i |
| CatalogRecords.NutritionOf | src/lib/openfoodfacts.js:220-229 | each of the eight values is the value stored under its own key (fat_100g, sugars_100g, salt_100g, proteins_100g, saturated-fat_100g, fiber_100g, sodium_100g), or 0 when absent; energy is the non-zero kcal value, else `energy_100g`, else 0 |
| CatalogRecords.AdditiveNames | src/lib/openfoodfacts.js:198-200 | position i holds the additive name of tag i (first "en:" removed, upper-cased), so none has a lower-case letter; an absent list gives [] |
| CatalogRecords.PlainTags | src/lib/openfoodfacts.js:203-205 | position i holds tag i with its first "en:" removed and every '-' turned into a space; an absent list gives [] |
| CatalogRecords.NormalizeProduct | src/lib/openfoodfacts.js:193-237 | id is the code when non-empty, else `_id`; name falls back from product_name to abbreviated_product_name to 'Unknown Product'; brand to 'Unknown Brand'; image from image_url to image_front_url to '/placeholder.svg'; ingredients to 'No ingredients listed'; grades through `Grade`; additives, packaging and categories through the tag maps; nutrition from the nutriments (none: all 0) |
| CatalogRecords.EnergyPreference | src/lib/openfoodfacts.js:221 | energy is the non-zero kcal value, else `energy_100g`, else 0 |
| CatalogRecords.EmptyPayloadDefaults | src/lib/openfoodfacts.js:195-205 | a payload without nutriments and tag lists gives all-zero nutrition and empty additive, packaging and category lists |
| CatalogRecords.RemoveLanguagePrefix | src/lib/openfoodfacts.js:199 | a tag starting with "en:" loses exactly those three characters: its additive name is the upper-cased rest and its plain form is the rest with dashes turned into spaces |
| CatalogRecords.TagWithoutPrefix | src/lib/openfoodfacts.js:204 | a tag without "en:" only has its dashes replaced by spaces (packaging) or is only upper-cased (additives) |
| CatalogRecords.SummaryAgreesWithProduct | src/lib/openfoodfacts.js:82-89 | a search hit and a by-code product with the same catalog fields get the same id, name, brand and grades, and the same image when the hit has one |
| Text.TrimLowerCommute | src/lib/openfoodfacts.js:37 | lower-casing then trimming equals trimming then lower-casing, so the catalog key and the route key agree |
| Text.NormalizeQuery | src/app/api/search/route.js:22 | the normalised query is trimmed and has no upper-case letter |
| Text.StripAllLeavesNoFence | src/app/api/analyze/route.js:80 | after removing every "```" (and a following newline) no "```" remains, not even one formed across a removed fence |
| SearchRoute.RouteKeyMatchesCacheKey | src/app/api/search/route.js:22 | the route key is exactly the catalog search key without its "search:" prefix |
| SearchRoute.Respond | src/app/api/search/route.js:44-53 | status 200 with the products iff the search resolved; otherwise 500 with the error's message and no products |
| SearchRoute.SearchHandler.constructor | src/app/api/search/route.js:6 | the registry starts empty |
| SearchRoute.SearchHandler.Get | src/app/api/search/route.js:8-35 | an invalid query is refused with no call and no registration; a registered key reuses its promise with no call; otherwise exactly one `searchProducts` call with the raw validated query, registered under the normalised key |
| SearchRoute.SearchHandler.PromiseSettled | src/app/api/search/route.js:38-42 | when the promise settles its entry is scheduled for removal 1000 ms later and nothing else changes |
| SearchRoute.SearchHandler.Tick | src/app/api/search/route.js:39-41 | exactly the entries whose removal time has come are deleted; the others are unchanged |
| SearchRoute.DuplicateRequests | src/app/api/search/route.js:25-29 | two requests differing only in case and spacing share one promise and make one `searchProducts` call and one upstream request |
| SearchRoute.SettledSearch | src/app/api/search/route.js:32-42 | after one settled search the route holds it until t + 1000 and the catalog has cached it |
| SearchRoute.ResidencyWindow | src/app/api/search/route.js:38-42 | a repeat before the 1000 ms deadline reuses the settled promise; at the deadline a new `searchProducts` call is made, answered from the cache; upstream is reached once |
| SearchBar.FiringExtendsHistory | src/components/SearchBar.jsx:25-31 | firing a query keeps the history invariant: last searched is the last fired normal form, no fired query was blank, no two consecutive ones normalise alike |
| SearchBar.SearchBox.constructor | src/components/SearchBar.jsx:16-22 | all query state starts empty and the first debounce timer is armed |
| SearchBar.SearchBox.Type | src/components/SearchBar.jsx:16-22 | a changed query cancels the pending timer and re-arms it 800 ms later |
| SearchBar.SearchBox.SetDebounced | src/components/SearchBar.jsx:24-32 | a new debounced value fires iff its normal form is non-empty and differs from the last searched; only a firing changes the last searched value |
| SearchBar.SearchBox.Tick | src/components/SearchBar.jsx:16-22 | the debounced value is updated only once the deadline has come; before that nothing changes |
| SearchBar.SearchBox.Submit | src/components/SearchBar.jsx:34-42 | submit fires the trimmed query iff it is non-empty and its lower-case form differs from the last searched, and then updates that value |
| SearchBar.BlankQueryNeverFires | src/components/SearchBar.jsx:28 | a whitespace-only query never fires, on either path |
| SearchBar.VariantsNormalizeAlike | src/components/SearchBar.jsx:25 | "Apple" and " apple " have the same normal form |
| SearchBar.TypeTwoVariants | src/components/SearchBar.jsx:16-32 | typing a query and then a case/space variant of it searches only once |
| AnalyzeRoute.CleanModelText | src/app/api/analyze/route.js:80 | the cleaned text is trimmed and no longer than the reply |
| AnalyzeRoute.Post | src/app/api/analyze/route.js:10-98 | no key gives 500 before the body; an unreadable body gives 500 with its message; no image gives 400 with no model call; otherwise one call of the one model with the file's type or image/jpeg; a model failure gives 500 with its message; a parse failure gives 500; else 200 with the parsed value |
| AnalyzeRoute.SuccessIsParsedText | src/app/api/analyze/route.js:91 | a 200 response carries exactly what the parser made of the cleaned text, with no defaulting |
| AnalyzeRoute.NoBacktickOnlyTrimmed | src/app/api/analyze/route.js:80 | text without a backtick is only trimmed |
| AnalyzeRoute.FencedBlockCleansToBody | src/app/api/analyze/route.js:80 | "```json\n" + body + "\n```" with a backtick-free body cleans to the trimmed body |
| AnalyzeRoute.CleanedTextHasNoFence | src/app/api/analyze/route.js:80 | the text handed to the parser contains no "```" |
| DatasetForm.ComputedGrade | src/components/DatasetForm.jsx:216-221 | the grade is A iff the total is at most 15, B in (15,20], C in (20,25], D in (25,30], E above 30 |
| DatasetForm.ComputedGradeMonotone | src/components/DatasetForm.jsx:216-221 | a higher total never gives a better grade |
| DatasetForm.Merge | src/components/DatasetForm.jsx:155-170 | each of name, brand, the seven nutrition fields and ingredients takes the extracted value when it is a non-empty string and otherwise keeps the previous value; allergens are replaced only by an array, joined with ", "; the two grades are never touched |
| DatasetForm.MergeIdempotent | src/components/DatasetForm.jsx:155-170 | merging the same extraction twice equals merging it once |
| DatasetForm.MergeNothing | src/components/DatasetForm.jsx:155-170 | an extraction with nothing in it leaves the form unchanged |
| DatasetForm.CleanParts | src/components/DatasetForm.jsx:212 | no more pieces are kept than given, and every kept piece is non-empty and trimmed |
| DatasetForm.CleanPartsFrom | src/components/DatasetForm.jsx:212 | every kept piece is the trimmed form of some input piece |
| DatasetForm.CleanPartsSingle | src/components/DatasetForm.jsx:212 | a single piece is kept, trimmed, exactly when it is not blank |
| DatasetForm.CleanPartsAppend | src/components/DatasetForm.jsx:212 | cleaning keeps order: the pieces of a concatenation clean to the concatenated results, so every non-blank piece is kept, in place |
| DatasetForm.ParseAllergens | src/components/DatasetForm.jsx:211-213 | an empty field gives []; otherwise the result is the cleaned comma-separated pieces; every parsed allergen is non-empty, trimmed and comma-free |
| DatasetForm.ParseJoinedAllergens | src/components/DatasetForm.jsx:211-213 | allergens joined with ", " by the auto-fill parse back to the same list on submit |
| DatasetForm.BuildEntry | src/components/DatasetForm.jsx:224-240 | user id, parsed nutrition and both previews passed through; name trimmed; brand trimmed or null; ingredients trimmed or 'Not available'; allergens parsed; computed grade only when the form's grade is empty; ecoScore defaults to 'B'; no packaging; unverified; description is the name plus " by " and the brand when there is one |
| DatasetForm.SelectedGradeAlwaysWins | src/components/DatasetForm.jsx:231 | since the selects always hold a letter, the stored grades are the selected ones |
| DatasetForm.ImageError | src/components/DatasetForm.jsx:53-57 | a non-image is refused with "Please select an image file for " and the slot's noun; an oversized file with the slot's title and " image size should be less than 10MB" |
| DatasetForm.ImageErrorNamesSlot | src/components/DatasetForm.jsx:53-57 | the product and nutrition slots' refusals never read alike |
| DatasetForm.ContributionForm.constructor | src/components/DatasetForm.jsx:13-39 | empty fields, grades 'A'/'B', no images, no previews, no toast |
| DatasetForm.ContributionForm.ShowToast | src/components/DatasetForm.jsx:41-43 | the toast becomes visible with that message and kind |
| DatasetForm.ContributionForm.HideToast | src/components/DatasetForm.jsx:45-47 | only the toast's visibility is turned off |
| DatasetForm.ContributionForm.HandleInputChange | src/components/DatasetForm.jsx:98-104 | exactly the named field takes the value |
| DatasetForm.ContributionForm.HandleImageFile | src/components/DatasetForm.jsx:49-76 | no file changes nothing; a non-image or a file over 10 MB only shows the slot's error toast; otherwise only the named slot is set |
| DatasetForm.ContributionForm.PreviewLoaded | src/components/DatasetForm.jsx:63-74 | only the named slot's preview is set |
| DatasetForm.ContributionForm.ExtractDataFromImages | src/components/DatasetForm.jsx:106-181 | without both images it fails with no request and no change; otherwise identification, then extraction only if it succeeded; the form is merged only when both succeed; loading ends false |
| DatasetForm.ContributionForm.HandleReset | src/components/DatasetForm.jsx:279-299 | defaults restored: empty fields, grades 'A'/'B', no images, no previews |
| DatasetForm.ContributionForm.HandleSubmit | src/components/DatasetForm.jsx:183-277 | a blank name is refused before the sign-in check; both refusals write nothing and leave the form, loading, images and previews as they were; a successful write stores the built entry and resets the form, images and previews; a failed write changes no form state and shows the error or fallback; loading ends false |
| Toasts.Shown | src/components/DatasetForm.jsx:41-43 | the toast is visible with the given message and kind |
| Toasts.Hidden | src/components/DatasetForm.jsx:45-47 | the toast is hidden and keeps its message and kind |
| ImageUpload.CheckImage | src/components/ImageUpload.jsx:15-26 | acceptable iff the type starts with "image/" and the size is at most 10·1024·1024; the type test comes first |
| ImageUpload.HandleImage | src/components/ImageUpload.jsx:15-32 | the callback is invoked, with that file, iff the file is acceptable and the callback exists; a refused file raises an alert |
| ImageUpload.HandleFiles | src/components/ImageUpload.jsx:8-13 | no file means no effect; otherwise only the first file is handled |
| ImageUpload.HandleCameraClick | src/components/ImageUpload.jsx:34-42 | the capture callback is called iff it is provided, else the file picker opens |
| ImageUpload.SizeBoundary | src/components/ImageUpload.jsx:23-26 | exactly 10 MB is accepted, one byte more is too large, and a non-image is refused whatever its size |
| AdminSession.LocalStorage.GetItem | src/app/admin/page.js:19-20 | a key's value if stored, else null |
| AdminSession.LocalStorage.SetItem | src/app/admin/login/page.js:21-22 | only that key is written |
| AdminSession.LocalStorage.RemoveItem | src/app/admin/page.js:32-33 | only that key is removed |
| AdminSession.NatToString | src/app/admin/login/page.js:22 | the written time is a non-empty run of digits without a leading zero |
| AdminSession.ParseIntOfNatToString | src/app/admin/page.js:24 | `parseInt` of a written time gives back that time |
| AdminSession.ParseIntWithoutDigits | src/app/admin/page.js:24 | text not starting with a sign, white space or digit parses to NaN |
| AdminLogin.LoginPage.constructor | src/app/admin/login/page.js:7-10 | empty credentials and error, not loading |
| AdminLogin.LoginPage.HandleSubmit | src/app/admin/login/page.js:13-28 | matching credentials write 'true' and the time and keep loading on; anything else sets the error, ends loading and leaves storage untouched |
| AdminPanel.SessionStatus | src/app/admin/page.js:19-27 | no session unless the flag is 'true' and a time is present; accepted iff the time parses and less than 24 h have passed |
| AdminPanel.LoginOpensDay | src/app/admin/page.js:19-27 | a time written by the login page is accepted exactly for the following 24 hours |
| AdminPanel.FromDocument | src/app/admin/page.js:52-54 | the item is the document's fields with `id` set to the document id unless a field overrides it |
| AdminPanel.ApprovedRecord | src/app/admin/page.js:79-85 | the approved record is the product's fields without `id`, with approved and verified set |
| AdminPanel.AwardPoints | src/app/admin/page.js:96-119 | an existing document gains one contribution and 10 points (missing counts as 0); a new one has 1 contribution, 0 scans, 10 points, level 1 |
| AdminPanel.AwardKeepsLevelInStep | src/app/admin/page.js:98-105 | after an award the stored level is `points div 100 + 1` of the stored points |
| AdminPanel.FirstAwardMatchesProfile | src/app/admin/page.js:110-118 | a new stats document agrees with the profile's points and level for one contribution |
| AdminPanel.StatsAfterApproval | src/app/admin/page.js:91-124 | a product without a user id leaves stats untouched; otherwise only that user's document changes, to the award |
| AdminPanel.RemoveId | src/app/admin/page.js:76 | exactly the items with other ids are kept |
| AdminPanel.RemoveIdKeepsOrder | src/app/admin/page.js:76 | the filter keeps order: it distributes over concatenation |
| AdminPanel.RemoveAbsentId | src/app/admin/page.js:145 | a list without that id is left as it was |
| AdminPanel.Panel.constructor | src/app/admin/page.js:11-15 | not authenticated, loading, empty list, nothing processing |
| AdminPanel.Panel.LoadPendingProducts | src/app/admin/page.js:41-62 | a successful query replaces the list, a failed one shows the error; loading ends false |
| AdminPanel.Panel.CheckSession | src/app/admin/page.js:17-39 | an accepted session authenticates and loads the list, leaving storage, route and processing id alone; an expired one removes both keys and redirects; without the keys it only redirects; the two refusals leave loading, list, toast and processing id unchanged |
| AdminPanel.Panel.Logout | src/app/admin/page.js:159-163 | both keys are removed and the page goes to the login route |
| AdminPanel.Panel.FailAndReload | src/app/admin/page.js:127-131 | an error toast, then a reload whose own failure replaces the toast |
| AdminPanel.Panel.HandleApprove | src/app/admin/page.js:72-135 | the item leaves the list; the approved record is added, the pending document deleted and points awarded, in that order; a failed award does not fail the approval; a failed add or delete reloads and leaves loading false; authentication and route are untouched; processing ends cleared |
| AdminPanel.Panel.HandleReject | src/app/admin/page.js:137-157 | a declined confirmation changes nothing; otherwise the items with that id leave the list and the document is deleted, or the list reloads on failure and loading ends false; authentication and route are untouched; processing ends cleared |
| AdminPanel.LoginThenOpenPanel | src/app/admin/page.js:19-27 | logging in and then opening the panel is accepted iff less than 24 hours separate the two |
| Profile.LevelFor | src/app/profile/page.js:49 | (level − 1)·100 ≤ points < level·100, and level ≥ 1 |
| Profile.LevelBandIsUnique | src/app/profile/page.js:49-50 | the level is the only one whose band holds the points |
| Profile.LevelMonotone | src/app/profile/page.js:49 | more points never lower the level |
| Profile.ComputeStats | src/app/profile/page.js:45-60 | points = 10·contributions + scans; nextLevelPoints = level·100; (level − 1)·100 ≤ points < nextLevelPoints |
| Profile.NoActivityIsInitial | src/app/profile/page.js:14-20 | no contributions and no scans give exactly the initial stats |
| Profile.Progress | src/app/profile/page.js:192 | the progress lies in [0, 100) and is the points above the current level's floor |
| Profile.LevelTitle | src/app/profile/page.js:85-92 | the title for each band of levels, with thresholds 20, 15, 10, 5, 3 |
| Profile.LevelTitleMonotone | src/app/profile/page.js:85-92 | a higher level never has a lower title |
| Profile.EarnedBadges | src/app/profile/page.js:94-106 | no more badges than rules tested |
| Profile.GetBadges | src/app/profile/page.js:94-106 | the pushes produce exactly the earned badges in rule order |
| Profile.EarnedBadgesMembership | src/app/profile/page.js:94-106 | a badge is shown iff one of the tested rules awarding it is met |
| Profile.RulesAwardDistinctBadges | src/app/profile/page.js:96-104 | no two rules award the same badge |
| Profile.EarnedBadgesDistinct | src/app/profile/page.js:94-106 | no badge appears twice among the earned badges |
| Profile.BadgeListBounds | src/app/profile/page.js:94-106 | at most nine badges, none twice |
| Profile.BadgesOnlyGrow | src/app/profile/page.js:96-104 | a badge once earned stays earned as contributions, scans and level grow |
| Profile.ProfilePage.constructor | src/app/profile/page.js:14-22 | initial stats, loading, no recent contributions |
| Profile.ProfilePage.FetchUserStats | src/app/profile/page.js:24-83 | nothing happens without a user and a database; otherwise the stats follow the two counts, the recent list follows its query, and loading ends false |
| ImageAnalysis.ThrownBy | src/app/scanner/page.js:61-64 | a non-OK reply throws an Error carrying the reply's error text when non-empty, else 'Failed to analyze image'; a thrown value reaches the catch block unchanged |
| ImageAnalysis.ErrorText | src/app/page.js:87 | the shown error is the message when it is non-empty, else the default text; never empty |
| ImageAnalysis.SavedScans | src/app/scanner/page.js:71-87 | a scan is saved iff there are a user, a database and data, and the write succeeds; it carries the user, the data's name, brand, nutrition table and both grades, and the preview |
| HomePage.Home.constructor | src/app/page.js:14-18 | no image, preview, result or error; not loading |
| HomePage.Home.HandleImageSelect | src/app/page.js:22-33 | the image is set and both the error and the result are cleared |
| HomePage.Home.PreviewLoaded | src/app/page.js:28-32 | the preview is set |
| HomePage.Home.HandleAnalyze | src/app/page.js:39-91 | without an image only the error is set (image, loading and result unchanged); otherwise loading ends false, success replaces the result and may save a scan, a failed save is swallowed, and a failure shows the message or the default |
| HomePage.Home.HandleReset | src/app/page.js:93-98 | all four fields are cleared |
| ScannerPage.Friendly | src/app/scanner/page.js:98-105 | 'API key' is tested first, then 'parse', then 'network' or 'fetch'; any other message is shown as it is |
| ScannerPage.RawMessageAsWritten | src/app/scanner/page.js:90-96 | as written, an Error's message is used even when it is empty |
| ScannerPage.EmptyErrorMessageIsLost | src/app/scanner/page.js:90-96 | as written, an Error with an empty message ends with an empty error text, where the corrected version shows the default |
| ScannerPage.ScannerError | src/app/scanner/page.js:90-105 | the scanner's error text is never empty |
| ScannerPage.ApiKeyErrorAsShown | src/app/scanner/page.js:99-100 | the route's missing-key error is shown as the configuration message |
| ScannerPage.ParseErrorAsShown | src/app/scanner/page.js:101-102 | the route's parse error is shown as the clearer-image message |
| ScannerPage.NoImageErrorAsShown | src/app/scanner/page.js:98-105 | the route's no-image error is shown unchanged |
| ScannerPage.AnalysisErrorAsShown | src/app/scanner/page.js:98-105 | the route's generic failure is shown unchanged |
| ScannerPage.UnexplainedFailureAsShown | src/app/scanner/page.js:61-64 | a non-OK reply without an error field shows 'Failed to analyze image' |
| ScannerPage.NothingToClassify | src/app/scanner/page.js:98-105 | a message lacking a character of each keyword is shown unchanged |
| ScannerPage.Scanner.constructor | src/app/scanner/page.js:17-21 | no image, preview, result or error; not loading |
| ScannerPage.Scanner.HandleImageSelect | src/app/scanner/page.js:25-36 | the image is set and both the error and the result are cleared |
| ScannerPage.Scanner.PreviewLoaded | src/app/scanner/page.js:31-35 | the preview is set |
| ScannerPage.Scanner.HandleAnalyze | src/app/scanner/page.js:42-111 | without an image only the "select or capture" error is set (image, loading and result unchanged); otherwise loading ends false, success replaces the result and may save a scan, a failed save sets no error, and a failure shows the classified message (the corrected, never-empty text) |
| ScannerPage.Scanner.HandleReset | src/app/scanner/page.js:113-118 | image, preview, result and error are cleared |
| ScoreBadge.ToneOf | src/components/ScoreBadge.jsx:17-33 | A and E green, B and D yellow, C orange, anything else red |
| ScoreBadge.SizeClasses | src/components/ScoreBadge.jsx:35-39 | size classes exist exactly for sm, md and lg |
| ScoreBadge.PlaceholderSize | src/components/ScoreBadge.jsx:6-8 | the N/A badge uses sm and lg as named and md text for every other size |
| ScoreBadge.Render | src/components/ScoreBadge.jsx:3-48 | an absent or empty score renders "label: N/A"; otherwise the upper-cased letter with its colour and size classes |
| ScoreBadge.UpperOfLower | src/components/ScoreBadge.jsx:14 | upper-casing a lower-cased score gives the plain upper-case form |
| ScoreBadge.RenderIgnoresCase | src/components/ScoreBadge.jsx:14 | the badge does not depend on the case of the score |
| ScoreBadge.ShownLetterIsUpper | src/components/ScoreBadge.jsx:45 | the displayed letter has no lower-case letter, and lower-case grades get their letter's colour |
| ScoreBadge.ColoursAreSymmetricAboutC | src/components/ScoreBadge.jsx:17-24 | A and E look alike, B and D look alike, and C differs from both |
| AuthForm.Utf16Length | src/components/AuthForm.jsx:26 | a password's JavaScript length lies between its character count and twice it |
| AuthForm.Utf16LengthOfBmp | src/components/AuthForm.jsx:26 | for Basic Multilingual Plane text the JavaScript length is the character count |
| AuthForm.Validate | src/components/AuthForm.jsx:21-29 | mismatch iff sign-up with differing passwords; too short iff that check passes and the length is below 6; no error iff both pass |
| AuthForm.SignInIgnoresConfirmation | src/components/AuthForm.jsx:21 | sign-in never looks at the confirmation field |
| AuthForm.LengthBoundary | src/components/AuthForm.jsx:26-29 | once the confirmation check passes, six or more characters always pass and fewer than three never do; for Basic Multilingual Plane passwords, passing is exactly having six characters or more |
| AuthForm.Form.constructor | src/components/AuthForm.jsx:10-12 | no error, no success, not loading |
| AuthForm.Form.HandleSubmit | src/components/AuthForm.jsx:16-46 | messages cleared first; a failed check sets its error with no call; otherwise one call of the mode's operation, then the mode's success text or the thrown message or fallback, with loading false |
| AuthForm.RefusalsAreExplained | src/components/AuthForm.jsx:42 | every refusal and every failed call leaves a non-empty error |

## Left out

- Network, Firestore, Supabase and AI calls are not modelled. Their results are parameters, as are `localStorage`'s initial content and `JSON.parse`.
- Promises, `await` and concurrency are not modelled. Coalescing is a sequence of request, settle and tick events.
- Real clocks and timers are not modelled. Time is an integer in milliseconds. The axios 10-second timeout is one more kind of failed reply.
- `searchQuerySchema` (src/lib/validators.js) is not part of this model. The search route receives its verdict as a parameter, and the 400 response's `details` field is not modelled.
- Floating-point work is left out: `parseFloat` of the form's numbers, the `totalScore` formula, `carbonFootprint`, `progressToNextLevel` and the radar charts' value scaling. The parsed numbers and the total are parameters, and nutriment values are reals with no NaN.
- The file contents are not modelled: the `FileReader` data URLs arrive through `PreviewLoaded`, and the route's base64 encoding and the prompt text are left out.
- The Firestore `serverTimestamp()` fields (`timestamp`, `approvedAt`, `lastContributionAt`, `createdAt`) and `servingSize` are not modelled. Neither are the badge icons or the `onSuccess` callback.
- Rendering is not modelled: camera toggles, popovers, the dataset page and the sign-in and sign-up pages.
- src/lib/gemini.js, src/contexts/AuthContext.jsx, src/app/api/history/route.js and src/lib/supabase-client.js are not part of this model. gemini.js is unused: it references an undeclared client. The others are wrappers around external SDKs.
- ScannerPage.Scanner.HandleAnalyze: uses the corrected `ScannerError`, so an `Error` with an empty message shows the default text. The code as written shows an empty error here. `ScannerPage.RawMessageAsWritten` and `ScannerPage.EmptyErrorMessageIsLost` model the written behaviour (see Findings).
- ImageAnalysis.SavedScans: the saved `nutrition` table is a map from keys to numbers. Other JSON shapes the model may return are not modelled.
- Text.ToLower, Text.ToUpper: case mapping covers ASCII letters only, including where `CatalogRecords.Grade` and `ScoreBadge.Render` upper-case a grade. JavaScript's full Unicode case mapping is not modelled.
- AdminPanel.SessionStatus: compares the millisecond difference with 86 400 000 rather than dividing by 3 600 000 in floating point. The two agree for every integer difference below 2^53, and `parseInt` results beyond 2^53 are taken exactly.
- AdminPanel.AwardPoints: Firestore's `increment` on a missing field counts from 0. Its behaviour on a non-numeric field is not modelled.

## Findings

| source | as written | input that shows it | evidently intended | confidence | as-written member | corrected member |
|---|---|---|---|---|---|---|
| src/app/scanner/page.js:90-96 | an `Error` whose message is empty passes the `instanceof Error` branch and sets the error text to "" | `throw new Error('')` inside `handleAnalyze` | fall back to 'Failed to analyze image. Please try again.' | low: no current call path throws an empty message; not executed | ScannerPage.EmptyErrorMessageIsLost | ScannerPage.ScannerError |

# TropicsTracker proxy and client data layer, in Dafny

TropicsTracker shows tropical storms, weather alerts and HURDAT2 best tracks
in the browser. The browser never calls NOAA, NWS or WeatherAPI itself. It
goes through a PHP proxy that exists in four near-identical variants:

- `api-proxy-unified.php`: environment-aware. It adds CORS, strict
  parameters, a rate limit in production, and five imagery endpoints.
- `api-proxy-secure.php`: hardened. It has an origin allow-list, strict
  parameters, a rate limit, and a 503 when the WeatherAPI key is missing.
- `api-proxy-production.php`: has an inline rate block and a six-box basin
  lookup.
- `api-proxy.php`: the original proxy.

Two JavaScript modules re-implement the same parsing on the client:

- `noaa-api.js`, the `NOAAApiClient` class.
- `weather-data.js`, the `WeatherDataManager` class with its in-memory cache.

This project models each of these as its own Dafny module over shared
datatypes, and proves what the code promises. The modules are:

- `Wrappers`: `Option` and `Result`.
- `Text`:
  - PHP `explode`, `implode` and `trim`, and JS `trim`;
  - PHP `empty()` on strings, where `""` and `"0"` are empty;
  - decimal rendering of integers.
- `Http`:
  - the ten endpoints and their names;
  - the query as an ordered list of pairs, `$_GET` as such a list with
    distinct names, and the `$_GET[...]` lookup;
  - upstream URLs and headers, the fetch outcome (transport error, or a
    status and a payload);
  - the response a script emits (status, JSON body, `X-Cache` header).
- `Weather`:
  - the Saffir–Simpson categories and `classifyStorm`;
  - the three- and six-box `determineBasin`;
  - the storm and alert records, and the decoded upstream documents.
- `Hurdat`:
  - the HURDAT2 line grammar (header lines, track lines);
  - the parse as a left fold of one loop step;
  - an independent front-recursive reference grouping, and the line
    selections of each variant's loop.
- `Normalize`: the storm and alert normalisation of the hardened proxies
  (with sanitiser, `intval`, three basins) and of the plain ones (six
  basins, no sanitiser).
- `Params`: `validateParams`, with its allow-list, its 100-character cut and
  its dropping of empty values.
- `Store`:
  - the cache directory as a class whose `files` map holds cached responses
    and `rate_*.json` records side by side;
  - freshness, write-then-rename and the sweep;
  - the rate-window policy.
- `UnifiedProxy`, `SecureProxy`, `ProductionProxy` and `ApiProxy`: one
  script each, as a request pipeline function (`Serve`) and the imperative
  handler (`Handle`) proved equal to it.
- `NoaaApi`: `parseNHCStormData`, `normalizeStormData`, `parseWeatherAlerts`,
  `parseHurdatData` and the demo data.
- `WeatherData`:
  - the table-driven `classifyStorm` over `STORM_CATEGORIES`;
  - the `WeatherDataManager` class, whose `cache` map the fetchers and
    `cleanupCache` update.
- `Variants`: where the four proxies agree and where they differ.

Time is a parameter (`now`), in seconds for the PHP scripts and in
milliseconds for the JavaScript. The upstream reply and the `rand()` draw
that schedules the sweep are parameters of the handlers as well.

`processNWSAlerts` tests only `isset($data['features'])`, so a feed with an
empty `features` list yields an empty alert list, not the demo alert
(`api-proxy-secure.php:353`, `api-proxy-unified.php:404`).

## Model

| member | source | states |
|---|---|---|
| Text.Trim | api-proxy-unified.php:446 | PHP `trim` never lengthens a line, and its result is empty or begins and ends with a character `trim` does not strip |
| Text.JsTrim | noaa-api.js:276 | JavaScript `trim` never lengthens a line, and its result is empty or begins and ends with a non-whitespace character |
| Text.TrimTrims | api-proxy-unified.php:446 | PHP `trim` gives a stripped text no longer than its input, made only of characters of the input |
| Text.JsTrimTrims | noaa-api.js:278 | JavaScript `trim` gives a stripped text no longer than its input, made only of characters of the input |
| Text.Split | api-proxy-unified.php:449 | `explode` gives at least one part and no part contains the separator |
| Text.SplitJoin | api-proxy-unified.php:793 | `explode` undoes `implode` for parts without the separator |
| Text.Decimal | api-proxy.php:162 | rendering a number gives a non-empty string of decimal digits, without a leading zero, whose value is the number |
| Text.Signed | api-proxy.php:100 | rendering a status code gives a minus sign exactly for a negative number, followed by digits whose value is its magnitude |
| Http.EndpointNamed | api-proxy.php:28-34 | an endpoint read from a name has that name |
| Http.NameRoundTrip | api-proxy-unified.php:102-113 | each of the ten endpoints is read back from its own name |
| Http.Named | api-proxy.php:37-46 | a lookup in an endpoint table finds only endpoints of that table with that name |
| Http.NamedComplete | api-proxy.php:37-46 | a lookup finds every endpoint that is in the table under that name |
| Http.Get | api-proxy-unified.php:86 | `$_GET[key]` exists iff some pair has that key, and its value is one of the key's values |
| Http.GetUnique | api-proxy-unified.php:86 | in a query whose names are distinct, as `$_GET` is, the lookup returns the value stored under the name |
| Http.Without | api-proxy-production.php:69-71 | removing `endpoint` keeps exactly the pairs with another key |
| Weather.Classify | api-proxy-unified.php:482-491 | the category is the one whose wind band holds the speed; TD below 39, CAT5 from 157 |
| Weather.ClassifyMonotone | api-proxy-unified.php:482-491 | a higher wind speed never gives a lower category |
| Weather.ClassifyBand | noaa-api.js:224-240 | a speed inside a category's band always classifies to that category |
| Weather.Trunc | api-proxy-secure.php:330-331 | the `(int)` cast truncates toward zero |
| Weather.ClassifyCastAgrees | api-proxy-secure.php:390-399 | classifying the cast integer speed agrees with classifying the real speed |
| Weather.DetermineBasin3 | api-proxy-unified.php:493-499 | the three-box lookup gives only atlantic, epac or wpac, in first-match order, with atlantic by default |
| Weather.DetermineBasin6 | api-proxy-production.php:373-381 | the six-box lookup never gives spc |
| Weather.SpcBoxEmpty | api-proxy.php:317-319 | no point satisfies the spc box `lon > 135 && lon < -120` |
| Weather.OverlapIsAtlantic | api-proxy-unified.php:493-499 | for lat in (0, 60) and lon in (-100, -80) both lookups give atlantic, since atlantic is tested first |
| Weather.Basin6VersusBasin3 | noaa-api.js:192-219 | the six-box and three-box lookups differ exactly on points outside the first three boxes that lie in the nio or sio box |
| Hurdat.Fields | api-proxy-unified.php:449 | a line splits into as many fields as `explode(',')` gives; each field is its part trimmed, holds no comma and has no whitespace at either end |
| Hurdat.JsFields | noaa-api.js:278 | the JS `split(',')` yields one field per part; each field is its part trimmed, holds no comma and has no whitespace at either end |
| Hurdat.Rows | api-proxy.php:217-222 | each line becomes its own row of fields, in order |
| Hurdat.Feed | api-proxy.php:228-249 | one loop iteration is exactly one step of the fold; a header closes the open storm |
| Hurdat.GroupsCount | api-proxy.php:228-238 | the reference grouping has one storm per header line |
| Hurdat.GroupsSnoc | api-proxy.php:239-249 | appending a row extends the reference grouping: a header opens a storm, a track line goes to the latest one |
| Hurdat.StepExtends | api-proxy.php:224-254 | a loop step on a consistent state keeps it consistent and extends the closed result as the reference does |
| Hurdat.Parse | api-proxy.php:224-256 | the parse is the loop's fold over the rows followed by closing the open storm (no contract of its own: ParseIsGroups and ParseCount state what it yields) |
| Hurdat.ParseIsGroups | api-proxy.php:215-256 | the loop's result equals the independent reference grouping |
| Hurdat.ParseCount | api-proxy-unified.php:437-473 | the parse gives one storm per header line |
| Hurdat.LeadingLinesIgnored | noaa-api.js:270-310 | lines before the first header do not change the result |
| Hurdat.GroupsPrefix | noaa-api.js:270-310 | the reference grouping ignores rows before the first header |
| Hurdat.FirstBlank | api-proxy-production.php:272-276 | the first blank line's index lies within the input |
| Hurdat.FirstBlankIsFirst | api-proxy-production.php:272-276 | every line before that index is non-blank, and the line at it is blank |
| Normalize.HardenedStorm | api-proxy-unified.php:375-394 | a hardened storm's category is the classification of its truncated wind; its basin comes from the three-box lookup on its coordinates; documented defaults fill missing coordinates and pressure |
| Normalize.HardenedStormFields | api-proxy-unified.php:375-394 | each of id, name, movement speed and direction, last update and forecast track is the (sanitised) input value when present and the (sanitised) documented default when absent |
| Normalize.HardenedStormDefaults | api-proxy-secure.php:325-342 | an empty storm record becomes `storm-<now>`, Unknown Storm, atlantic, TD, wind 0, pressure 1013 at (25, -75), moving 0 towards N, updated now, with no track |
| Normalize.PlainStorm | api-proxy-production.php:200-227 | a plain storm's category matches its wind, its basin comes from the six-box lookup and is never spc, and a missing id becomes `storm-<now>` |
| Normalize.PlainStormFields | api-proxy.php:152-177 | each of id, name, pressure, movement speed and direction, last update and forecast track is the decoded value when present and the documented default when absent |
| Normalize.PlainStormDefaults | api-proxy.php:152-177 | an empty storm record gets name Unknown Storm, basin atlantic, category TD, pressure 1013, movement 0 towards N, last update now and no track |
| Normalize.HardenedAlert | api-proxy-unified.php:409-421 | a missing event, expiry or sent time becomes `Weather Alert`, now + 24 h and now |
| Normalize.HardenedAlertFields | api-proxy-unified.php:409-421 | each of the eight alert fields is the sanitised property when present and the sanitised documented default when absent |
| Normalize.HardenedAlertDefaults | api-proxy-secure.php:360-369 | a feature without properties gets `alert-<now>`, Weather Alert, No description available, Unknown, Unknown, Unknown Area, issued now and expiring now + 24 h |
| Normalize.PlainAlert | api-proxy-production.php:242-256 | the alert keeps the feed's id when present, else `alert-<now>`; a missing expiry becomes now + 24 h |
| Normalize.PlainAlertFields | api-proxy.php:195-206 | each of the eight alert fields is the property when present and the documented default when absent |
| Normalize.PlainAlertDefaults | api-proxy.php:193-206 | a feature without properties gets every documented default |
| Normalize.MapEach | api-proxy.php:147-179 | the foreach loop yields one normalised record per input, in order |
| Params.Cut | api-proxy-unified.php:193 | a value is cut to its first 100 characters and kept whole when shorter |
| Params.ValidatedShape | api-proxy-unified.php:180-201 | the result never contains `endpoint`, strict keys lie in the allow-list, and each value is non-empty and at most 100 characters |
| Params.ValidateParams | api-proxy-unified.php:180-201 | the loop builds exactly the validated parameter list |
| Params.NarrowerList | api-proxy-secure.php:148-169 | validating against a narrower allow-list equals validating against the wider one, then keeping only the narrower keys |
| Params.OnlyAppend | api-proxy-secure.php:148-169 | filtering by keys distributes over concatenation |
| Store.Swept | api-proxy-unified.php:571-578 | the sweep keeps exactly the non-JSON files and the JSON files at most `maxAge` old, unchanged |
| Store.WindowDecision | api-proxy-unified.php:206-236 | a missing, partial or expired record restarts at count 1; otherwise the count grows by one and the call is denied iff it exceeds the limit |
| Store.AdmittedWithin | api-proxy-secure.php:174-203 | inside one window, the calls after a record with count c are admitted iff their new count stays within 60 |
| Store.SixtyPerWindow | api-proxy-unified.php:206-236 | starting fresh, within one window exactly the first sixty calls pass and the 61st fails |
| Store.Directory.constructor | api-proxy-unified.php:555-562 | a new cache directory holds no files |
| Store.Directory.Lookup | api-proxy-unified.php:120-126 | a cached file is returned iff it exists and is less than the expiry old |
| Store.Directory.Write | api-proxy-production.php:158 | writing stores the content with the current mtime and changes nothing else |
| Store.Directory.Rename | api-proxy-secure.php:461 | a rename moves the file's content and mtime to the new name |
| Store.Directory.CacheResponse | api-proxy-secure.php:458-463 | writing the temporary file and renaming it leaves the body under the cache name, stamped now, with no temporary file left |
| Store.Directory.Sweep | api-proxy-secure.php:465-472 | the unlink loop leaves exactly the swept directory |
| Store.Directory.CheckRateLimit | api-proxy-unified.php:206-236 | the call is allowed iff the window policy allows it; only an allowed call rewrites the client's record |
| Store.SweepKeepsFresh | api-proxy-unified.php:152-154 | a sweep never removes a cache file that would still be served |
| Store.RateOf | api-proxy-secure.php:178-186 | no rate file reads as no record; a rate file reads as its record; a file of another shape reads as a record without keys |
| Store.SweepKeepsRateDecision | api-proxy-secure.php:465-472 | for a rate file stamped no later than it was written, a sweep at any moment never changes a rate decision taken then or later |
| UnifiedProxy.AllowOrigin | api-proxy-unified.php:46-53 | development allows `*`; production echoes a listed origin and otherwise sends `null` |
| UnifiedProxy.ValidateEndpoint | api-proxy-unified.php:159-175 | an empty name gives 400 "Missing endpoint parameter", an unknown one 400 "Invalid endpoint", a known one its endpoint |
| UnifiedProxy.AcceptsEveryEndpoint | api-proxy-unified.php:102-113 | all ten endpoints, imagery included, are accepted by name |
| UnifiedProxy.ParseBounds | api-proxy-unified.php:789-803 | an empty string or one that does not split into four parts gives the global box; otherwise the four parts in order |
| UnifiedProxy.ParseJoinedBounds | api-proxy-unified.php:789-803 | four comma-free corners joined with commas are read back as those corners |
| UnifiedProxy.BuildApiUrl | api-proxy-unified.php:241-271 | the URL decision by cases (no contract of its own: BuildApiUrlCases states it) |
| UnifiedProxy.BuildApiUrlCases | api-proxy-unified.php:241-271 | imagery endpoints give a descriptor; weatherapi with q and a missing or placeholder key gives no call; only key and q reach weatherapi, only area reaches nws-alerts |
| UnifiedProxy.Received | api-proxy-unified.php:276-334 | a payload reaches processing iff the call succeeded with status 200 |
| UnifiedProxy.FallbackData | api-proxy-unified.php:501-549 | one demo storm whose category matches its wind, one status alert expiring in 24 h, an error for hurdat2 and weatherapi only, a global fallback descriptor for every imagery layer |
| UnifiedProxy.DemoStormConsistent | api-proxy-unified.php:505-520 | the fallback storm's category and basin agree with the classifiers |
| UnifiedProxy.NhcStormsBody | api-proxy-unified.php:368-397 | the answer of processNHCStorms (no contract of its own: ProcessNHCStorms is proved equal to it and states its content) |
| UnifiedProxy.ProcessNHCStorms | api-proxy-unified.php:368-397 | one hardened storm per upstream storm, in order, preferring `activeStorms` |
| UnifiedProxy.NwsAlertsBody | api-proxy-unified.php:402-424 | the answer of processNWSAlerts (no contract of its own: ProcessNWSAlerts is proved equal to it and states its content) |
| UnifiedProxy.ProcessNWSAlerts | api-proxy-unified.php:402-424 | one hardened alert per feature, in order |
| UnifiedProxy.ProcessHurdatData | api-proxy-unified.php:437-473 | the storms of the non-blank lines among the first 1000 raw lines, with no status in track points |
| UnifiedProxy.ParseHurdatLines | api-proxy-unified.php:446-470 | the counter loop with `continue` and the 1000-line cap computes exactly that parse |
| UnifiedProxy.ProcessResponse | api-proxy-unified.php:339-363 | the dispatch on the endpoint equals the processing function, and a failed call gives the fallback |
| UnifiedProxy.Serve | api-proxy-unified.php:71-154 | the script as a function of the directory: 204, 405 and 400 before the endpoint stage (no contract of its own: Handle is proved equal to it; ServeConsistent and RejectedUntouched state its properties) |
| UnifiedProxy.ServeEndpoint | api-proxy-unified.php:86-154 | validation, the production rate check, then the cache stage (no contract of its own: EndpointStage, DevelopmentUnlimited and DeniedUntouched state its properties) |
| UnifiedProxy.ServeCached | api-proxy-unified.php:116-154 | a fresh file answers a hit, otherwise the miss body is cached and maybe swept (no contract of its own: CachedStage and RepeatIsHit state its properties) |
| UnifiedProxy.KeyOf | api-proxy-unified.php:117 | the cache key names the endpoint and holds only validated parameters: never `endpoint`, each value non-empty and at most 100 characters, and only allow-listed names outside development |
| UnifiedProxy.Handle | api-proxy-unified.php:71-154 | the whole script (preflight, method check, validation, rate block, cache, call, write, sweep) yields the pipeline's response and directory |
| UnifiedProxy.HandleEndpoint | api-proxy-unified.php:86-154 | from endpoint validation on, the script equals the endpoint stage of the pipeline |
| UnifiedProxy.HandleCached | api-proxy-unified.php:116-154 | from the cache key on, the script equals the cache stage |
| UnifiedProxy.Answer | api-proxy-unified.php:143-154 | on a miss the processed body is cached, sent with `X-Cache: MISS` and optionally swept |
| UnifiedProxy.FetchBody | api-proxy-unified.php:131-141 | the descriptor or the upstream call and its processing equal the miss function |
| UnifiedProxy.CachedStage | api-proxy-unified.php:116-154 | the cache stage keeps the directory consistent, and a miss leaves the sent body cached with mtime now |
| UnifiedProxy.EndpointStage | api-proxy-unified.php:92-154 | the same holds for the endpoint stage under the request's own cache key |
| UnifiedProxy.ServeConsistent | api-proxy-unified.php:71-154 | serving any request keeps rate files and cache files apart |
| UnifiedProxy.RejectedUntouched | api-proxy-unified.php:71-87 | OPTIONS gives 204, another non-GET 405, a bad endpoint 400, all without touching the directory or calling upstream |
| UnifiedProxy.ValidGoesOn | api-proxy-unified.php:86-87 | a GET with a valid endpoint proceeds to the endpoint stage |
| UnifiedProxy.FreshIsHit | api-proxy-unified.php:120-126 | a fresh cache file is served as a hit with its age, without an upstream call (unless rate-limited) |
| UnifiedProxy.RepeatIsHit | api-proxy-unified.php:120-146 | a repeat of a missed request within 300 s is served from the cache, with the same body |
| UnifiedProxy.DevelopmentUnlimited | api-proxy-unified.php:92-99 | in development every valid request is answered with 200, and without a sweep the client's rate record neither appears nor disappears |
| UnifiedProxy.DeniedUntouched | api-proxy-unified.php:92-99 | a denied call gets 429 with retry 60 and limit 60, and the directory is unchanged |
| UnifiedProxy.MissCases | api-proxy-unified.php:241-279 | imagery is never fetched; a call goes to the endpoint's base with its headers; a missing key gives the unavailable error; a failed call gives the fallback |
| SecureProxy.AllowOrigin | api-proxy-secure.php:14-29 | the origin is echoed iff it is one of the four allowed, otherwise `null` |
| SecureProxy.ValidateEndpoint | api-proxy-secure.php:130-143 | only the five upstream endpoints are accepted; empty gives "Missing endpoint parameter", others "Invalid endpoint" |
| SecureProxy.AcceptsExactlyUpstream | api-proxy-secure.php:84-91 | an endpoint name is accepted iff the endpoint is an upstream one |
| SecureProxy.BuildSecureApiUrl | api-proxy-secure.php:216-233 | it aborts with 503 iff weatherapi has q and the key is falsy; otherwise only key and q, or area, reach the URL |
| SecureProxy.Received | api-proxy-secure.php:238-272 | a payload reaches processing iff the call succeeded with status 200 |
| SecureProxy.FallbackData | api-proxy-secure.php:411-449 | one demo storm whose category matches its wind, one status alert expiring in 24 h, and an error for every other endpoint |
| SecureProxy.DemoStormConsistent | api-proxy-secure.php:415-430 | the fallback storm agrees with the classifiers |
| SecureProxy.NhcStormsBody | api-proxy-secure.php:317-346 | the answer of processNHCStorms (no contract of its own: ProcessNHCStorms is proved equal to it and states its content) |
| SecureProxy.ProcessNHCStorms | api-proxy-secure.php:317-346 | a falsy document gives the demo storm; otherwise one hardened storm per upstream storm, in order |
| SecureProxy.NwsAlertsBody | api-proxy-secure.php:351-373 | the answer of processNWSAlerts (no contract of its own: ProcessNWSAlerts is proved equal to it and states its content) |
| SecureProxy.ProcessNWSAlerts | api-proxy-secure.php:351-373 | absent features give the single `demo-alert-1`; otherwise one hardened alert per feature, in order |
| SecureProxy.ProcessApiResponse | api-proxy-secure.php:294-312 | the dispatch equals the processing function |
| SecureProxy.FailureFallsBack | api-proxy-secure.php:294-312 | a failed call gives the endpoint's fallback data |
| SecureProxy.HurdatIsNotParsed | api-proxy-secure.php:306-308 | a HURDAT2 text reply is not parsed; it gives the unavailable error |
| SecureProxy.Serve | api-proxy-secure.php:43-125 | the script as a function of the directory (no contract of its own: Handle is proved equal to it; ServeConsistent and RejectedUntouched state its properties) |
| SecureProxy.ServeEndpoint | api-proxy-secure.php:62-125 | validation, the rate check, then the cache stage (no contract of its own: EndpointStage and DeniedUntouched state its properties) |
| SecureProxy.ServeCached | api-proxy-secure.php:93-125 | a fresh file answers a hit, otherwise the miss is answered and a 200 body cached (no contract of its own: CachedStage and FreshIsHit state its properties) |
| SecureProxy.KeyOf | api-proxy-secure.php:94 | the cache key names the endpoint and holds only allow-listed names (q, area, year) with non-empty values of at most 100 characters |
| SecureProxy.Handle | api-proxy-secure.php:43-125 | the whole script yields the pipeline's response and directory |
| SecureProxy.HandleEndpoint | api-proxy-secure.php:62-125 | from validation on, the script equals the endpoint stage |
| SecureProxy.HandleCached | api-proxy-secure.php:93-125 | from the cache key on, the script equals the cache stage |
| SecureProxy.Answer | api-proxy-secure.php:106-125 | an aborted call gives 503 and writes nothing; otherwise the body is cached by write-then-rename and sent |
| SecureProxy.FetchBody | api-proxy-secure.php:106-113 | the URL, the call and the processing equal the miss function |
| SecureProxy.CachedStage | api-proxy-secure.php:93-125 | a 200 miss leaves the sent body cached with mtime now; a non-200 answer changes no file |
| SecureProxy.EndpointStage | api-proxy-secure.php:73-125 | the same holds for the endpoint stage under the request's own key |
| SecureProxy.ServeConsistent | api-proxy-secure.php:43-125 | serving any request keeps rate files and cache files apart |
| SecureProxy.RejectedUntouched | api-proxy-secure.php:43-70 | OPTIONS 204, non-GET 405 "Method not allowed", a bad endpoint 400, with nothing written and no call |
| SecureProxy.DeniedUntouched | api-proxy-secure.php:73-82 | a denied call gets 429 with retry 60 and limit 60 and writes nothing |
| SecureProxy.FreshIsHit | api-proxy-secure.php:98-103 | a fresh cache file is served with its age and no upstream call (unless rate-limited) |
| SecureProxy.MissCases | api-proxy-secure.php:216-289 | the call aborts iff weatherapi has q and no key; otherwise it goes to the endpoint's base with its `getApiHeaders` headers |
| SecureProxy.FailedCallFallsBack | api-proxy-secure.php:238-272 | an error or non-200 reply gives the fallback data |
| SecureProxy.MissingKeyAborts | api-proxy-secure.php:216-233 | weatherapi with q and no key answers 503 or 429 with no upstream call and no cache write |
| ProductionProxy.RateDecision | api-proxy-production.php:47-66 | within the window the call is denied iff the stored count is at least 60, else the count grows by one under the old timestamp |
| ProductionProxy.AgreesWithWindow | api-proxy-production.php:47-66 | on complete records, compare-then-increment decides as the hardened increment-then-compare does |
| ProductionProxy.AdmittedAgree | api-proxy-production.php:47-66 | over any sequence of calls from complete records, both policies admit the same calls |
| ProductionProxy.SixtyPerWindow | api-proxy-production.php:55-60 | exactly sixty calls pass in one window |
| ProductionProxy.ApiUrl | api-proxy-production.php:96-107 | only key and q reach weatherapi, with the placeholder key when the key is unset; only area reaches nws-alerts |
| ProductionProxy.FallbackData | api-proxy-production.php:318-358 | one demo storm whose category matches its wind, one status alert expiring in 24 h, and an error for every other endpoint |
| ProductionProxy.DemoStormConsistent | api-proxy-production.php:320-337 | classifyStorm(125) is CAT3 and determineBasin(25.4, -76.2) is atlantic, as the fallback storm says |
| ProductionProxy.NhcStormsBody | api-proxy-production.php:194-232 | the answer of processNHCStorms (no contract of its own: ProcessNHCStorms is proved equal to it and states its content) |
| ProductionProxy.ProcessNHCStorms | api-proxy-production.php:194-232 | `activeStorms` is preferred and normalised one per storm in order; without storms, or without JSON, the fallback storm |
| ProductionProxy.NwsAlertsBody | api-proxy-production.php:237-260 | the answer of processNWSAlerts (no contract of its own: ProcessNWSAlerts is proved equal to it and states its content) |
| ProductionProxy.ProcessNWSAlerts | api-proxy-production.php:237-260 | one plain alert per feature, in order |
| ProductionProxy.ProcessHurdatData | api-proxy-production.php:265-305 | the parse of the trimmed lines before the first blank line, at most 1000 of them, with status in track points |
| ProductionProxy.ParseHurdatLines | api-proxy-production.php:271-301 | the loop with `break` computes exactly that parse |
| ProductionProxy.ProcessResponse | api-proxy-production.php:170-189 | the dispatch equals the processing function |
| ProductionProxy.CheckRate | api-proxy-production.php:49-66 | the inline block allows iff the policy does and rewrites the record only then |
| ProductionProxy.Serve | api-proxy-production.php:21-165 | the script as a function of the directory, with the rate block before endpoint validation (no contract of its own: Handle is proved equal to it; InvalidStillCounted states its order) |
| ProductionProxy.ServeEndpoint | api-proxy-production.php:68-165 | endpoint validation, then the cache stage under the full parameter key (no contract of its own: KeyCoversAllParams states its key) |
| ProductionProxy.ServeCached | api-proxy-production.php:81-165 | a fresh file answers a hit, otherwise a successful body is cached (no contract of its own: FailureNotCached and RepeatIsHit state its properties) |
| ProductionProxy.Handle | api-proxy-production.php:21-165 | the whole script yields the pipeline's response and directory |
| ProductionProxy.HandleEndpoint | api-proxy-production.php:68-165 | after the rate block: an unknown endpoint gives 400 "Invalid endpoint", otherwise the script equals the endpoint stage |
| ProductionProxy.HandleCached | api-proxy-production.php:81-165 | from the cache key on, the script equals the cache stage |
| ProductionProxy.Answer | api-proxy-production.php:138-165 | a failed call echoes the fallback and writes nothing; a success is written and sent |
| ProductionProxy.FetchBody | api-proxy-production.php:96-158 | the URL, the headers, the call and the processing equal the miss function |
| ProductionProxy.InvalidStillCounted | api-proxy-production.php:47-79 | an invalid endpoint still passes the rate block, so it still consumes quota before the 400 |
| ProductionProxy.FailureNotCached | api-proxy-production.php:138-151 | a transport error or non-200 status echoes the fallback with 200 and writes no cache file |
| ProductionProxy.KeyCoversAllParams | api-proxy-production.php:82-91 | the cache key covers every parameter but `endpoint`, and a fresh file under it is served |
| ProductionProxy.RepeatIsHit | api-proxy-production.php:81-161 | a repeat of a cached request within 300 s is served from the cache |
| ApiProxy.BaseUrl | api-proxy.php:28-34 | every endpoint but weatherapi has its shared base URL |
| ApiProxy.ApiUrl | api-proxy.php:58-68 | only key and q reach weatherapi, only area reaches nws-alerts |
| ApiProxy.DemoStormsConsistent | api-proxy.php:327-360 | classifyStorm(125) is CAT3, classifyStorm(65) is TS, and both demo storms lie in the atlantic box |
| ApiProxy.NhcStormsBody | api-proxy.php:141-182 | the answer of processNHCStorms (no contract of its own: ProcessNHCStorms is proved equal to it and states its content) |
| ApiProxy.ProcessNHCStorms | api-proxy.php:141-182 | undecodable input gives "Invalid JSON response"; `activeStorms` gives one plain storm per entry, in order |
| ApiProxy.NwsAlertsBody | api-proxy.php:187-210 | the answer of processNWSAlerts (no contract of its own: AlertPerFeature states its content) |
| ApiProxy.AlertPerFeature | api-proxy.php:187-210 | with features, one plain alert per feature, in order |
| ApiProxy.ProcessNWSAlerts | api-proxy.php:187-210 | the loop equals the alerts function |
| ApiProxy.ProcessHurdatData | api-proxy.php:215-256 | the parse of the non-blank trimmed lines, with no cap |
| ApiProxy.ParseHurdatLines | api-proxy.php:224-252 | the loop with `continue` computes exactly that parse |
| ApiProxy.ProcessResponse | api-proxy.php:116-136 | the dispatch equals the processing function, including the weatherapi reply that is not JSON |
| ApiProxy.StatusOf | api-proxy.php:92-102 | the status is 200 iff the call succeeded with 200 |
| ApiProxy.Serve | api-proxy.php:14-111 | the script as a function of the directory (no contract of its own: Handle is proved equal to it; InvalidEndpoint states its error path) |
| ApiProxy.ServeCached | api-proxy.php:48-111 | a fresh file answers a hit, otherwise a 200 body is cached (no contract of its own: HitIffFresh, FailureNotCached and RepeatIsHit state its properties) |
| ApiProxy.Handle | api-proxy.php:14-111 | the whole script yields the pipeline's response and directory |
| ApiProxy.HandleCached | api-proxy.php:48-111 | from the cache key on, the script equals the cache stage |
| ApiProxy.Answer | api-proxy.php:92-111 | an error status passes through and writes nothing; a 200 is written and sent |
| ApiProxy.FetchBody | api-proxy.php:58-116 | the URL, the headers, the call and the processing equal the miss function |
| ApiProxy.InvalidEndpoint | api-proxy.php:37-46 | a name outside the endpoint table gives 400 "Invalid endpoint" and touches nothing |
| ApiProxy.FailureNotCached | api-proxy.php:92-102 | a transport error gives 500, a non-200 status passes through, and neither writes a cache file |
| ApiProxy.HitIffFresh | api-proxy.php:53-56 | a file is served without a call iff it exists and is less than 300 s old |
| ApiProxy.RepeatIsHit | api-proxy.php:48-111 | a repeat of a successful request within 300 s is served from the cache with the same body |
| NoaaApi.NormalizeStormData | noaa-api.js:166-187 | falsy chains pick `maxWind`, then `windSpeed`, then 0, and likewise for the coordinates; the category and the six-box basin match, never spc; id, name, direction, intensity and size are never empty, and coordinates and pressure never 0 |
| NoaaApi.NormalizeStormFields | noaa-api.js:166-187 | every other field follows its chain step by step: the first truthy key, else the default (`storm-<now>`, Unknown Storm, 1013, 0, N, now, [], Unknown) |
| NoaaApi.EquatorIsMissing | noaa-api.js:176 | a latitude of 0 counts as missing and becomes 25 |
| NoaaApi.DemoStormsConsistent | noaa-api.js:315-350 | both demo storms agree with the classifiers |
| NoaaApi.ParseNHCStormData | noaa-api.js:149-161 | `storms` is returned unchanged, else `activeStorms` normalised one for one, else the demo storms |
| NoaaApi.ParsedActiveStormsConsistent | noaa-api.js:149-187 | every parsed storm's category matches its wind and its basin is never spc |
| NoaaApi.ParseWeatherAlerts | noaa-api.js:245-265 | `alerts` is returned unchanged; without alerts or features, the demo alerts |
| NoaaApi.AlertPerFeature | noaa-api.js:250-264 | with features, one alert per feature, in order, iff every feature has properties (else a TypeError) |
| NoaaApi.FromFeature | noaa-api.js:254-263 | the client record copies the feature's id, event, description, severity, urgency, area and geometry, and its sent and expiry times as given, absent when the feature lacks them |
| NoaaApi.AlertCoordinates | noaa-api.js:254-263 | each alert takes its id and geometry from its own feature |
| NoaaApi.ParseHurdatData | noaa-api.js:270-310 | the loop computes the parse of the non-blank trimmed lines, with no cap |
| NoaaApi.ParseHurdatLines | noaa-api.js:275-307 | the `for` loop with `continue` computes exactly that parse |
| NoaaApi.HurdatGrouped | noaa-api.js:270-310 | the result is the reference grouping, one storm per header, each point with the latest header |
| WeatherData.FirstMatch | weather-data.js:343-357 | the first table entry, in order, whose inclusive band holds the wind |
| WeatherData.ClassifyStorm | weather-data.js:343-357 | the loop returns the first matching entry's labels, and gives labels iff some entry matches |
| WeatherData.ConfiguredTableAgrees | config.js:99-107 | for every integer 0..999 at most one entry matches, and the table agrees with the proxies' classifyStorm |
| WeatherData.GapsGetTdEntry | weather-data.js:356 | speeds in the table's gaps (73..74, above 999, negative) return the TD entry itself |
| WeatherData.FallbackStormConsistent | weather-data.js:362-379 | the fallback storm's labels and basin agree with the classifiers |
| WeatherData.FallbackModelData | weather-data.js:384-391 | one run per model, in order, named by its key, with its accuracy and an empty track |
| WeatherData.FallbackModelsNamed | config.js:110-118 | the fallback has exactly the seven configured models |
| WeatherData.KeyKinds | weather-data.js:18-256 | each fetcher's key always holds data of its own kind |
| WeatherData.LayerKeysCollide | weather-data.js:186 | the key joins layer and bounds with `-`, and a `-` inside a layer name makes two different requests share a key: layer `wind-1` with bounds [2] and layer `wind` with bounds [1, 2] |
| WeatherData.Live | weather-data.js:737-743 | the expiry keeps exactly the entries at most `CACHE_DURATION` old, unchanged |
| WeatherData.WeatherDataManager.constructor | weather-data.js:7-16 | a new manager has an empty cache |
| WeatherData.WeatherDataManager.ReadThrough | weather-data.js:18-43 | a fresh entry is returned and the cache is unchanged; otherwise a fetched result is stored with timestamp now |
| WeatherData.WeatherDataManager.FetchActiveStorms | weather-data.js:18-43 | a fresh storm list is served from the cache; otherwise a fetched list is cached, and failure gives the uncached fallback |
| WeatherData.WeatherDataManager.FetchForecastModels | weather-data.js:132-155 | the same for a storm's models, with the fallback model list |
| WeatherData.WeatherDataManager.FetchSatelliteImagery | weather-data.js:185-228 | the cache is keyed on layer plus bounds; an unknown layer returns null and caches nothing |
| WeatherData.WeatherDataManager.FetchWeatherAlerts | weather-data.js:233-256 | the same for a region's alerts; failure gives an empty list |
| WeatherData.WeatherDataManager.CleanupCache | weather-data.js:735-753 | no survivor is older than `CACHE_DURATION`; at most 100 remain; survivors are unchanged; no evicted entry is newer than a survivor |
| WeatherData.WeatherDataManager.ExpireOld | weather-data.js:737-743 | the deleting loop leaves exactly the live entries |
| WeatherData.OldestKey | weather-data.js:747-751 | the chosen key has the smallest timestamp |
| Variants.BlankFreeRows | api-proxy.php:220-224 | without blank lines, trimming every line and skipping blank ones read the same rows |
| Variants.ProductionReadsPrefix | api-proxy-production.php:272-276 | production reads what api-proxy.php would read from the lines before the first blank one, capped at 1000 |
| Variants.LoopsAgreeWithoutBlanks | api-proxy-unified.php:446-470 | on at most 1000 lines with no blank one, the unified, production and api-proxy.php loops read the same rows |
| Variants.MissingTimestampDiffers | api-proxy-production.php:55-57 | a record without a timestamp is read as the epoch by production: in the first minute after the epoch a full count denies, where the hardened check restarts |
| Variants.MissingTimestampAgreesLater | api-proxy-production.php:51-62 | from one minute after the epoch on, a record without a timestamp restarts the window at count 1 in both production and the hardened check, whatever its count |
| Variants.MissingCountDiffers | api-proxy-production.php:55-62 | a record without a count: production counts from 0 under the old timestamp, the hardened check restarts |
| Variants.SecureNarrowsUnified | api-proxy-secure.php:148-169 | the secure parameters are the unified strict parameters restricted to q, area and year |
| Variants.UnlistedParamKeys | api-proxy-production.php:82 | an unlisted parameter leaves the secure cache key alone but changes the production key |
| Variants.ImageryOnlyUnified | api-proxy-unified.php:102-113 | only the unified proxy serves the imagery endpoints; the others accept exactly the five upstream ones |

## Left out

- The network: cURL in the proxies (`makeApiRequest`, `makeSecureApiRequest`, the inline cURL blocks) and the browser `fetch`. The outcome of the call (a transport error, or a status and a payload) is a parameter of the handlers.
- Headers, `http_response_code`, `echo` and `exit`. A script's effect is a returned `Response` value (status, JSON body, `X-Cache` header), and the security and CORS headers other than the origin decision are not modelled.
- Logging (`logError`, `logSecurityEvent`, `debugLog`), `mkdir` and the `.htaccess` file, and `LOCK_EX` locking. The directory is a map of file names to content and mtime.
- `md5`, `hash('sha256', …)` and `serialize`. They are idealised as injective: a cache file's name carries the endpoint and the ordered parameter list, so the key still depends on parameter order.
- `json_decode` and `json_encode`. Replies arrive already decoded, as documents with optional fields, and a cached body is the response value itself.
- `filter_var`, `strip_tags` and `htmlspecialchars`, the sanitisers. They are an uninterpreted `sanitize` function parameter.
- `intval`, `floatval`, `parseInt` and `parseFloat`. HURDAT2 numeric fields and the `parseBounds` corners are kept as trimmed strings; wind, pressure and coordinates arrive as numbers.
- JS `NaN`. A falsy number is 0 or missing only.
- `rand()` scheduling of the sweep. It is a boolean `sweep` parameter of each handler.
- `time()`, `date('c')` and `Date.now()`. Time is a parameter, and a formatted date is kept as the timestamp it formats.
- The API keys. They are handler parameters, and no key value appears in the model.
- `respondWithError`'s debug fields (time, method, parameters) in development.
- In `api-proxy-secure.php` a failed call hands `getFallbackData`'s array to the processors, and they `json_decode` it. Under PHP 8 that call throws a `TypeError`, which the `catch (Exception …)` does not catch. The model follows PHP 7 instead: the decode yields null, so each processor answers with its own fallback.
- The imagery descriptors of `buildWeatherImageryResponse`, `buildWeatherDataResponse` and their fallbacks, and the layer descriptors of `weather-data.js`. They are constant data. A descriptor keeps only its endpoint, bounds and fallback flag, and a layer descriptor is an uninterpreted string.
- The colour maps and scales (`getRadarColorMap`, `getWindScale` and the rest): constant data.
- `weather-data.js` `fetchWithRetry`, `performRequest`, `fetchNHCData`, `fetchAlternateStormData` and `parseNHCStorms`, and the `noaa-api.js` `fetch*` methods. Their substance is promise handling, timeouts and retries; each fetcher's result is a parameter (`fetched`) of the cached read.
- `startCacheCleanup`'s timer.
- `config.js` and `config.example.js` other than the category table, the model table, the intervals and the cache limits; `health-check.php` and `test-nws-api.php`.
- WeatherData.WeatherDataManager.CleanupCache: eviction is modelled as repeated removal of one oldest entry instead of a stable sort followed by a slice. Which of several entries with equal timestamps goes is left open, and the insertion order of the JS `Map` is not modelled.
- The file-system race between the freshness test and the read of a cache file: each script runs against one snapshot of the directory.
- Normalize.HardenedAlert: a missing expiry becomes now + 86400 s. The source asks for `strtotime('+1 day')`, a calendar day, which is an hour shorter or longer across a daylight-saving change in the server's time zone.
- Normalize.PlainAlert: the same simplification of `strtotime('+1 day')` to now + 86400 s.
- Params.Validated: parameter names are strings compared exactly. Under PHP 7 a numeric name such as `0` becomes the integer key 0, and the loose `in_array` at `api-proxy-secure.php:155` and `api-proxy-unified.php:187` compares it equal to every non-numeric allowed name, so `?0=x` would pass the allow-list there. The model follows PHP 8, where it is dropped.
- The raw query string: one that repeats a name reaches the script with only the last value, so the model starts from `$_GET` as an array with distinct names (`Http.GetArray`).
- Http.GetArray: query values are strings only, so array-valued parameters (`?endpoint[]=x`, `?q[]=x`) are not modelled. They reach three branches: the `!is_string($endpoint)` test that answers 400 "Missing endpoint parameter" (`api-proxy-unified.php:165`, `api-proxy-secure.php:133`), `isset($API_ENDPOINTS[$endpoint])` with an array offset (`api-proxy.php:42`, `api-proxy-production.php:75`), and `filter_var` turning an array value into false so that `validateParams` drops it (`api-proxy-unified.php:192-196`).

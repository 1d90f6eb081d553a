# Trip planner: request handling and plan post-processing

A model of the trip planner's server side and its key store. It covers these parts:

- **Deno agent server** (`zypher-server.ts`).
  - `planTrip` drains the agent's event stream. The last completed text wins and the first error event aborts.
  - It strips Markdown code fences from the text, trims it and parses it.
  - It fills in a missing trip id (`trip-<now>`) and missing destination ids (`dest-<now>-<index>`).
  - The request handler answers CORS preflights, validates the body, reports the outcome as 200 or 500, serves a health check and answers 404 otherwise.
- **Next.js plan-trip route** (`app/api/plan-trip/route.ts`).
  - It validates the browser's request and forwards only the Anthropic and Firecrawl keys to the agent server.
  - It passes upstream errors through.
  - When a Google Maps key is present, it fetches photos for each destination and merges them into the plan by position.
- **Photo route** (`app/api/fetch-photos/route.ts`). It builds the Places "find place" query with `encodeURIComponent`. It then returns up to three Places photo URLs, or one Unsplash fallback URL.
- **Places diagnostic route** (`app/api/test-places/route.ts`). POST builds a report from one find-place response. GET serves a test form or a JSON notice.
- **Placeholder image route** (`app/api/placeholder-image/route.ts`). It picks a colour scheme by category and truncates long names to 40 characters plus "...".
- **API key hook** (`hooks/useApiKeys.ts`). A class holds the keys, the first-visit flag and the loaded flag. It persists the keys as one string under `trip_planner_api_keys` in a storage object.

JavaScript values the handlers receive untyped are modelled by the `Json` datatype (`JsonValue.dfy`). This covers the agent's plan, the plan-trip request body and the upstream reply. The datatype comes with the language rules the source relies on:

- truthiness;
- `a || b`;
- reading a property;
- object spread.

Engine exceptions are modelled as error results. For example, a property read on `null`, or `.map` on a non-array, yields the message the handler would put in its error envelope.

Everything outside the process is an input to the model: the agent run, the Places API, the upstream HTTP calls, `JSON.parse`/`JSON.stringify`, `Date.now()` and `localStorage`'s initial contents.

## Model

| member | source | states |
|---|---|---|
| JsText.TrimStart | zypher-server.ts:145 | the result is a suffix of the input, only whitespace was dropped, and it does not start with whitespace |
| JsText.TrimEnd | zypher-server.ts:145 | the result is a prefix of the input, only whitespace was dropped, and it does not end with whitespace |
| JsText.TrimDropsTrailingWhitespace | zypher-server.ts:145 | `trim` ignores a trailing whitespace character |
| JsText.Decimal | zypher-server.ts:150-154 | the rendering of a clock value or index is a non-empty digit string without a leading zero |
| JsText.DecimalRoundTrip | zypher-server.ts:154 | reading the digits back gives the number |
| JsText.DecimalInjective | zypher-server.ts:154 | distinct numbers render differently |
| UriEncoding.EncodedAlphabet | app/api/fetch-photos/route.ts:17-19 | `encodeURIComponent` output holds only unreserved characters, `%` and upper-case hex digits |
| UriEncoding.EncodeUnreservedIdentity | app/api/fetch-photos/route.ts:17-19 | text made only of unreserved characters is left unchanged |
| UriEncoding.DecodeEncode | app/api/fetch-photos/route.ts:17-19 | decoding the encoded place name gives it back, for every string |
| JsonValue.SpreadWith | zypher-server.ts:152-155 | `{...j, key: v}` holds `v` under `key` and exactly the spread properties of `j` elsewhere |
| AgentEvents.ErrorText | zypher-server.ts:131-133 | an error event's message when it is non-empty, "Agent encountered an error" when it is missing or empty |
| AgentEvents.LastCompletionText | zypher-server.ts:122-135 | backward reference search: the text of a completion event with no completion after it, and nothing exactly when there is no completion |
| AgentEvents.DrainLastCompletionWins | zypher-server.ts:118-135 | without error events the loop ends with the text of the last completion, or the initial value |
| AgentEvents.DrainStopsAtFirstError | zypher-server.ts:131-133 | the first error event aborts with its message, whatever came before or after |
| AgentEvents.DrainIgnoresTailAfterError | zypher-server.ts:131-133 | events after the first error never influence the outcome |
| FenceCleaning.StripAll | zypher-server.ts:143-144 | a global regex deletion never lengthens the text |
| FenceCleaning.CleanWithoutBackticks | zypher-server.ts:142-145 | text without backticks is only trimmed |
| FenceCleaning.CleanJsonFenced | zypher-server.ts:142-145 | a "```json" fenced body cleans to the trimmed body |
| FenceCleaning.CleanBareFenced | zypher-server.ts:142-145 | a bare "```" fenced body cleans to the trimmed body |
| FenceCleaning.CleanKeepsOtherTag | zypher-server.ts:142-145 | an opening fence with another language tag loses its backticks but keeps the tag in the text |
| FenceCleaning.CleanKeepsOtherTagFenced | zypher-server.ts:142-145 | a complete fence with another language tag cleans to the trimmed tag line and body |
| ZypherServer.DestinationIdsDistinct | zypher-server.ts:154 | synthesized ids at different indices differ, whatever the clock readings |
| ZypherServer.BackfillDestination | zypher-server.ts:152-155 | the id is kept when truthy, else synthesized; every other property is copied as spread copies it; the id is truthy |
| ZypherServer.BackfillDestinations | zypher-server.ts:151-156 | fails exactly when some destination is null; otherwise keeps length and order and backfills each entry |
| ZypherServer.BackfillPlan | zypher-server.ts:150-156 | succeeds exactly for an object with an array of non-null destinations; the result has truthy trip and destination ids; other top-level fields are unchanged |
| ZypherServer.DecodePlan | zypher-server.ts:142-168 | a plan comes out exactly when the cleaned text parses to a plan with a destination array; it is exactly `BackfillPlan` of the parsed value, so every destination is kept in order; errors are never empty |
| ZypherServer.PlanTrip | zypher-server.ts:118-168 | the event loop computes the front-fold specification; a success is a backfilled plan; a failure has a message |
| ZypherServer.PlanTripFailsOnFirstError | zypher-server.ts:131-133 | the first error event decides the result |
| ZypherServer.PlanTripDecodesLastCompletion | zypher-server.ts:118-147 | without errors the last completion is decoded; "No result from agent" when it is missing or empty |
| ZypherServer.DecodeIgnoresFences | zypher-server.ts:142-147 | fencing the JSON in "```json" or "```" does not change the outcome |
| ZypherServer.SingleDestinationGetsIndexZeroId | zypher-server.ts:150-156 | an id-less single destination gets `dest-<now>-0` and the plan `trip-<now>` |
| ZypherServer.Serve | zypher-server.ts:174-225 | CORS headers on every response, plus the JSON content type on the plan and health routes; 200 for preflight; 400 when `userInput` or `apiKeys` is falsy; 200 or 500 by outcome; 500 with the thrown message or "Internal server error" when the body cannot be read; health check; 404 otherwise |
| ZypherServer.ServedPlansAreBackfilled | zypher-server.ts:195-200 | every 200 reply of the plan route carries a plan with all ids filled |
| FetchPhotos.SearchUrl | app/api/fetch-photos/route.ts:17-20 | the query extends the find-place URL, by the location bias exactly when a location is given |
| FetchPhotos.GooglePhotoUrls | app/api/fetch-photos/route.ts:65-71 | at most three photo URLs, width 800, for the first photos in order |
| FetchPhotos.SelectPhotos | app/api/fetch-photos/route.ts:30-86 | 1 to 3 URLs; the fallback on REQUEST_DENIED, no candidate or no photos; otherwise the candidate's photo URLs |
| FetchPhotos.FetchPhotosPost | app/api/fetch-photos/route.ts:3-96 | JSON headers; 200 exactly for a photo list of 1 to 3 URLs; 400 on missing fields; the Places call is made for `SearchUrl` and its response selects the photos; a throw gives 500 with its message or "Failed to fetch photos" |
| FetchPhotos.OnlyFirstCandidateMatters | app/api/fetch-photos/route.ts:60-80 | candidates after the first and the error message never change the reply |
| FetchPhotos.FallbackUrlCarriesName | app/api/fetch-photos/route.ts:75-79 | the fallback URL's query decodes back to the place name |
| TestPlaces.Diagnose | app/api/test-places/route.ts:178-196 | place and photo count exactly when a candidate was found; a width-400 sample URL exactly when it has photos; the error message only without a candidate |
| TestPlaces.TestPlacesPost | app/api/test-places/route.ts:160-205 | 400 on missing key or place; otherwise the find-place call is made for the encoded place name and the 200 report is `Diagnose` of its response; 500 with the thrown message |
| TestPlaces.TestPlacesGet | app/api/test-places/route.ts:3-157 | the HTML form exactly when no key is given, the JSON notice otherwise |
| TestPlaces.DiagnosisPredictsPhotos | app/api/test-places/route.ts:183-193 | a sample URL exactly when the photo route serves Places photos for the same response, with the same first photo |
| PlaceholderImage.ParamOr | app/api/placeholder-image/route.ts:6-7 | a missing or empty parameter takes the default |
| PlaceholderImage.NameLabel | app/api/placeholder-image/route.ts:57 | names of up to 40 characters are kept; longer ones become their first 40 characters plus "...", 43 in all |
| PlaceholderImage.PlaceholderGet | app/api/placeholder-image/route.ts:4-76 | 200 with SVG and cache headers; colours and emoji from the scheme; the raw category as label; the truncated name |
| PlaceholderImage.UnknownCategoryKeepsLabel | app/api/placeholder-image/route.ts:22-54 | an unknown category is drawn in Attraction colours but labelled with its own name |
| PlanTripRoute.RequestProblem | app/api/plan-trip/route.ts:10-22 | "Missing required fields" exactly when `userInput` or `apiKeys` is falsy; the request passes exactly when `userInput`, `apiKeys`, `apiKeys.anthropic` and `apiKeys.firecrawl` are all truthy |
| PlanTripRoute.ForwardedBody | app/api/plan-trip/route.ts:30-36 | the forwarded body holds the user input and only the Anthropic and Firecrawl keys |
| PlanTripRoute.ForwardedBodyPassesServer | app/api/plan-trip/route.ts:25-37 | the agent server never rejects a forwarded body as incomplete: it answers by the agent's outcome |
| PlanTripRoute.PhotoRequestBody | app/api/plan-trip/route.ts:61-65 | the photo request carries the destination's name and coordinates when defined, and the Google key |
| PlanTripRoute.PhotosOf | app/api/plan-trip/route.ts:68-73 | a throw or an unsuccessful reply gives `[]`; a successful one gives its `photos` |
| PlanTripRoute.MergedPhotos | app/api/plan-trip/route.ts:81 | the merged photos value is always truthy |
| PlanTripRoute.Enrich | app/api/plan-trip/route.ts:53-82 | fails exactly when a destination is null; otherwise the same length and order, each entry the original plus its photos |
| PlanTripRoute.WithDestinations | app/api/plan-trip/route.ts:79 | only `data.destinations` changes; every other field of the plan and of `data` is kept |
| PlanTripRoute.PlannedReply | app/api/plan-trip/route.ts:51-85 | without the enrichment gate the upstream data is returned unchanged; with it, a non-array is a 500, a null destination is a 500, and otherwise 200 |
| PlanTripRoute.PlanTripPost | app/api/plan-trip/route.ts:6-95 | validation in order with 400s; the Deno server is called with `ForwardedBody`; connection failures as 500 with the message or the default; a non-2xx upstream keeps its status and error or "Failed to plan trip", and a `null` error body gives 500 with the TypeError message; 2xx goes through the enrichment |
| PlanTripRoute.NoGoogleKeyNoPhotos | app/api/plan-trip/route.ts:52-85 | without a Google Maps key the upstream plan is returned untouched, whatever the photo fetches would give |
| PlanTripRoute.EnrichedPlanShape | app/api/plan-trip/route.ts:52-85 | an enriched reply is the plan with only the destination list changed, in order, each entry with its photos |
| PlanTripRoute.ReplyJson | app/api/fetch-photos/route.ts:82-95 | the photo route's JSON is truthy and has a truthy `success` exactly for a photo list |
| PlanTripRoute.MergedPhotosAreBounded | app/api/plan-trip/route.ts:68-81 | when the photo route answers, every destination gets an array of at most three URL strings |
| ApiKeyStore.KeyStore.constructor | hooks/useApiKeys.ts:9-15 | empty keys, first visit, not loaded |
| ApiKeyStore.KeyStore.Load | hooks/useApiKeys.ts:17-30 | restores parsable non-empty stored keys and clears the first-visit flag; otherwise the state is unchanged; always marks loaded |
| ApiKeyStore.KeyStore.Save | hooks/useApiKeys.ts:32-36 | keys in state and serialized in storage under the key's slot; no longer a first visit; `hasAllKeys` exactly when all three are non-empty |
| ApiKeyStore.KeyStore.Clear | hooks/useApiKeys.ts:38-46 | empty keys, slot removed, first visit again, `hasAllKeys` false |
| ApiKeyStore.ReloadAfterSave | hooks/useApiKeys.ts:17-36 | keys saved in one visit are exactly what the next visit loads, with the first-visit flag cleared |
| ApiKeyStore.ReloadAfterClear | hooks/useApiKeys.ts:17-46 | after clearing, the next visit starts with empty keys as a first visit |

## Left out

- The agent run is not modelled. This covers creating the context, the Anthropic model provider, the Firecrawl MCP server registration, the prompt text and `runTask`. The event stream the run produces is an input of `ZypherServer.PlanTrip`.
- Network I/O is represented by its outcome. This covers the Places API call, the call from the Next.js route to the agent server and each photo fetch. Each outcome is either the parsed reply or the message of what threw.
- `JSON.parse` and `JSON.stringify` are parameters. Responses carry values, not their serialized JSON text.
- `Date.now()` is a parameter: one reading for the trip id, and one per destination index.
- Logging (`console.log` and `console.error`) is omitted, because it has no effect on results.
- Markup is not modelled. The placeholder route's result is the values it fills into the SVG. The test-places GET form is a single constructor, so its HTML and inline script are left out.
- Object key order is not modelled. JSON objects are maps, so the order in which properties are serialized is not represented.
- Strings are sequences of Unicode scalar values, not UTF-16 code units.
  - The 40-character cut in the placeholder counts code units in the source.
  - A lone surrogate, which would make `encodeURIComponent` throw, cannot be represented.
- Numbers are carried by their canonical JavaScript text (`String(n)`), and every `parse` parameter (`JSON.parse`) is taken to return numbers in that form: `Truthy` treats exactly `JNum("0")` as falsy, so a parse result holding `JNum("0.0")` or `JNum("-0")` would be misjudged. The coordinates interpolated into the search URL are that text.
- FetchPhotos.FetchPhotosPost: request fields are typed (strings, and a location with two coordinates). A body whose fields have other JSON types is not modelled.
- TestPlaces.TestPlacesPost: request fields are typed the same way.
- PlacesApi.FindPlaceResponse: the Places response is typed. A `null` response body or a `null` candidate makes the source throw and answer 500; the model cannot represent either.
- PlaceholderImage.SchemeFor: only own keys are looked up.
  - In the source, a category such as `constructor` finds a member of the object prototype.
  - Reading its gradient then throws.
- TestPlaces.TestPlacesGet: the `place` query parameter is read, defaulting to "Eiffel Tower", but the handler never uses it, so it is not modelled.
- ApiKeyStore.KeyStore.Load: the parser returns a key record or nothing. A stored text that parses to some other JSON value is not modelled; the source would put that value into state.
- React scheduling is not modelled. A state setter is an immediate assignment, and the mount effect is a method the page calls once.
- `ZYPHER_SERVER_URL`, the request origin and the server port are not modelled. They only select where requests go.
- PlanTripRoute.PlanTripPost: the upstream status is passed through as given. The range check `NextResponse.json` applies to status codes is not modelled.
- Concurrency is not modelled. The photo fetches run concurrently, so each fetch is an input indexed by position. Every failure they can cause carries the same message, so the order in which they complete does not change the result.
- Engine exception messages are fixed strings in the wording of the V8 engine.
- `Deno.env.set("HOME", ...)` is not modelled.
- The browser components, the page and `Zypher-test.ts` are not part of this model.

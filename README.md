# WanderWise request routing and response shaping, in Dafny

WanderWise is a trip planner: a small Express backend that forwards requests to
a mapping provider (directions and places text search) and to a chat-completion
provider, and a browser page that shows what comes back. This project models
the decision and reshaping logic of both sides and proves what it promises:

- `/api/plan` (`PlanEndpoint`): validation of `{origin, destination,
  transportMode}`, the choice of at most one provider call (`Decide`), and the
  shaping of the provider's answer into `{kind, data}` or an error (`Shape`),
  including the six-agency truncation and projection (`TopAgencies`).
- `/api/ai` (`AiEndpoint`): the `days = 2` default, the prompt, the
  `"No response"` fallback and the fixed `"AI error"` failure.
- The browser (`ClientApp`): the nested routes → legs → steps walk that lists
  the transit lines of a reply (three methods with loops, proved equal to the
  specification function `TransitInfo`), the line-label and agency-text
  fallbacks, and the "no agencies" / `"No itinerary"` fallbacks.

The providers' answers are inputs: raw JSON becomes the datatypes of
`Provider`, with an `Option` for every field that may be absent, and the outcome
of a call is a `Result<…, UpstreamError>`. JavaScript truthiness is modelled
explicitly (`Text.Truthy`: absent, `null` and `""` are falsy). The browser reads
the backend's reply datatypes directly; the JSON wire format between them is
not modelled.

Files: `wrappers.dfy` (Option, Result), `text.dfy` (truthiness, integer
rendering in a template literal, `join`), `provider.dfy` (provider JSON),
`plan_endpoint.dfy`, `ai_endpoint.dfy` (both `backend/server.js`),
`client_app.dfy` (`frontend/app.js`).

Two behaviours of `backend/server.js` worth stating: `days` is used as given
and only an absent value becomes 2 (line 21), and a provider error is logged
and never echoed to the client, which gets a fixed message (lines 31-33 and
91-93).

## Model

| member | source | states |
|---|---|---|
| PlanEndpoint.Decide | backend/server.js:40-90 | a missing or empty origin or destination is rejected with 400 "origin and destination are required" whatever the mode; "own" and "public" decide one directions call (driving / transit, alternatives true) with the request's origin and destination; "agency" decides one places call with query "travel agency in " + destination; any other mode is rejected with 400 "unknown transportMode"; a rejection happens exactly when the request is invalid or the mode unknown |
| PlanEndpoint.TopAgencies | backend/server.js:84-86 | the agency list has length min(N, 6) for N results, is empty when `results` is missing, and entry i copies name, formatted address, rating (absent stays absent) and place id of result i |
| PlanEndpoint.Shape | backend/server.js:58-93 | a rejection becomes its own error reply whatever the provider answered; a failed call becomes 500 "Server error"; a directions answer is returned unmodified with kind "driving" or "transit" as the mode says; a places answer becomes kind "agencies" with the truncated projection |
| PlanEndpoint.HandlePlan | backend/server.js:38-95 | the whole handler: 400 exactly when the request is invalid or the mode unknown, 500 exactly when the decided call failed, error messages only the three fixed ones, and each success kind comes only from its own mode with the provider data unmodified or truncated to TopAgencies |
| PlanEndpoint.MissingEndpointsRejected | backend/server.js:42-44 | without origin or destination the reply is the 400 validation error, and it does not depend on any provider outcome |
| PlanEndpoint.OwnModeDrives | backend/server.js:46-58 | mode "own" decides a driving call with alternatives and returns the provider body unmodified under kind "driving" |
| PlanEndpoint.PublicModeUsesTransit | backend/server.js:61-74 | mode "public" decides a transit call with alternatives and returns the provider body unmodified under kind "transit" |
| PlanEndpoint.AgencyModeSearchesPlaces | backend/server.js:77-87 | mode "agency" queries "travel agency in " + destination and replies with at most six agencies, the i-th projected from the i-th result |
| PlanEndpoint.TopAgenciesPrefix | backend/server.js:84 | truncation keeps order: the agencies of a prefix of the results are a prefix of the agencies of all results |
| PlanEndpoint.ErrorsAreFixed | backend/server.js:42-93 | every error reply is 400 with one of the two validation messages or 500 "Server error", and two failed calls give the same reply whatever the provider's error said |
| PlanEndpoint.StatusClassifies | backend/server.js:42-93 | the reply is 200 exactly when the request is valid with a known mode and the decided call succeeded; with the 400 and 500 cases of HandlePlan the status classifies every request |
| AiEndpoint.Days | backend/server.js:21 | days is 2 when the request leaves it out and the given value otherwise |
| AiEndpoint.Prompt | backend/server.js:22-23 | the prompt is exactly as long as the fixed lead, the days, the connecting word "-day ", trip type, the connecting words " itinerary for ", destination and the fixed instructions together (where each stands is stated by PromptEmbedsFields) |
| AiEndpoint.FirstContent | backend/server.js:29 | the optional chain yields a value exactly when choices exist and are non-empty and the first has a message with non-null content, and then that content |
| AiEndpoint.BuildCall | backend/server.js:22-28 | the completion call carries the prompt and a limit of 400 tokens |
| AiEndpoint.PromptEmbedsDays | backend/server.js:21-22 | the number of days (defaulted) can be read back from the prompt right after "Create a concise " |
| AiEndpoint.PromptEmbedsFields | backend/server.js:22-23 | the prompt is the fixed lead, the days, "-day ", trip type, " itinerary for ", destination (trip type and destination "undefined" when absent) and the fixed instructions, each at the offset the template gives it, and nothing else |
| AiEndpoint.ShapeAi | backend/server.js:29-33 | a failed call, and only a failed call, gives 500 "AI error"; otherwise the reply is the first choice's message content when it is non-null, and "No response" when choices are missing or empty or the content is null |
| AiEndpoint.AiErrorsAreFixed | backend/server.js:31-33 | the error reply is the same whatever the provider's error said |
| AiEndpoint.EmptyContentKept | backend/server.js:29 | an empty content is a successful empty itinerary, not the fallback, because the fallback is `??` |
| Text.IntToString | backend/server.js:22 | the rendering of `${days}` is non-empty and starts with "-" exactly for a negative number |
| Text.Join | frontend/app.js:78 | joining no items gives "" and joining one item gives that item |
| Text.IntRoundTrip | backend/server.js:22 | the decimal text written for an integer in the template reads back as that integer when a non-digit follows |
| Text.JoinLength | frontend/app.js:78 | a joined string is as long as its items plus one separator per pair of neighbours |
| Text.JoinItemAt | frontend/app.js:78 | item i of a join stands after the items before it and one separator between each pair of them, with a separator just before it unless it is the first; with JoinLength this fixes the joined text |
| Text.JoinEnds | frontend/app.js:78 | a joined string starts with its first item and ends with its last |
| ClientApp.RoutesOf | frontend/app.js:68 | the routes walked are the directions reply's routes; none when a directions reply has no `routes`, and none for any other reply |
| ClientApp.LineLabel | frontend/app.js:76 | the label is a truthy short name, else a truthy name, else "Unnamed", and is never empty |
| ClientApp.AgencyRefs | frontend/app.js:78 | the agencies of the transit details when present (even empty), else those of the line, else none |
| ClientApp.AgencyNames | frontend/app.js:78 | one name per agency, in order, a missing name written as "" |
| ClientApp.AgencyText | frontend/app.js:78 | an empty but present `td.agencies` gives "", no agency list anywhere gives "", and a single agency gives its bare name |
| ClientApp.EntryOf | frontend/app.js:75-79 | the record's line is LineLabel (never empty), its vehicle is the line's vehicle type and absent when the line or its vehicle is, and its agency is AgencyText |
| ClientApp.AgencyTextProperties | frontend/app.js:78 | for any number of agencies the text is their names in order with ", " between neighbours: it is as long as the names plus two characters per separator, name i stands after the names before it and i separators, and ", " stands just before every name but the first |
| ClientApp.CollectAppend | frontend/app.js:69-83 | the entries of two step sequences are the entries of the first followed by those of the second: order is kept |
| ClientApp.RouteStepsAppend | frontend/app.js:69-72 | the steps of two route lists are those of the first followed by those of the second |
| ClientApp.CollectMembers | frontend/app.js:73-80 | an entry is in the list exactly when some TRANSIT step with transit details produced it |
| ClientApp.CollectEmptyIff | frontend/app.js:73-84 | the list is empty exactly when no step is a TRANSIT step with details, and it is never longer than the steps |
| ClientApp.SkipsRouteWithoutSteps | frontend/app.js:69-72 | a route without legs, or whose legs have no steps, contributes nothing and can be removed without changing the list |
| ClientApp.AppendStepEntries | frontend/app.js:71-81 | the step loop appends exactly the entries of the leg's steps, in order, to what was collected before |
| ClientApp.CollectLegEntries | frontend/app.js:70-82 | the leg loop yields the entries of all the route's legs' steps, in order |
| ClientApp.ExtractTransitInfo | frontend/app.js:68-83 | the nested loops build exactly `TransitInfo`: the entries of all TRANSIT steps with details, route by route, leg by leg, step by step |
| ClientApp.PublicTransitList | frontend/app.js:68-83 | for a "public" request the browser lists the transit steps of the provider's routes, and nothing when the request was refused or the call failed |
| ClientApp.ShownAgencies | frontend/app.js:93-94 | the agency list is shown exactly when the reply is a non-empty agency list, and then unchanged; anything else shows "No agencies found." |
| ClientApp.AgencyListShown | frontend/app.js:93-94 | for an "agency" request the list is shown exactly when the request was valid, the call succeeded and the provider returned at least one place |
| ClientApp.ShownItinerary | frontend/app.js:108 | the shown itinerary is the reply's text if non-empty, else "No itinerary", and never empty |
| ClientApp.ItineraryFallbacks | frontend/app.js:108 | an empty completion text is a server success but shows "No itinerary", a missing one shows "No response", a failed call shows "No itinerary" |

## Left out

- Express, CORS, JSON body parsing, `app.listen`, the port and the `/api/ping` health route: framework plumbing with no decision logic.
- The axios and OpenAI SDK calls, API keys and the model name: foreign network calls and configuration; their outcomes are the `upstream` inputs of `Shape` and `ShapeAi`.
- `console.error` logging of the provider's error: output only; the model shows that the error never reaches the reply.
- The browser's geolocation (`getOrigin`), the map and the directions rendering, all DOM and HTML-string construction and the `fetch` calls: browser APIs and presentation; only the choice between a list and its "empty" message is modelled.
- async/await sequencing: each handler makes at most one call and there is no shared state.
- AiEndpoint.Days: only an absent `days` or an integer of magnitude at most 2^53 - 1 is modelled (the request field is a `SafeInteger`); beyond that `JSON.parse` rounds the value and from 10^21 on JavaScript writes it in exponent form, neither of which is modelled; a `null`, fractional or string `days` (which the template would render as written) is not modelled either.
- AiEndpoint.Prompt: an `Option` cannot tell `null` from `undefined`, so an absent trip type or destination is always rendered "undefined" (JavaScript renders `null` as "null").
- ClientApp.CollectLegEntries: the browser pushes every entry onto one array; the model collects one route's entries and appends them to the list after the route, which gives the same list.
- Request or provider JSON values of unexpected types (a non-string `origin`, a non-array `routes`, a `null` provider body) are not modelled; such inputs make the source throw or coerce, which the datatypes exclude.
- The agency rating is held as a `real` and only copied; floating-point formatting is not modelled.

# FHIR chat and data-quality assessor, modelled in Dafny

This project models the two browser clients of a FHIR demo site.

- **The quality assessor** (`FHIRQualityAssessor` in app.js) does the following:
  - probes four resource types on a FHIR server;
  - validates each response and scores it with penalties;
  - looks up the patients that the returned resources refer to;
  - averages the scores of the resource types that answered;
  - places the average in one of four bands.
- **The chat bot** (`FHIRChatBot` in chat.js) does the following:
  - reads a natural-language query;
  - routes it through a cascade of substring rules to one handler;
  - extracts a patient id or name with regular expressions;
  - sends FHIR searches through a chain of CORS relays;
  - builds a success, warning, error or info reply.

The network is a parameter:

- **Chat side.** `Transport.Env` maps each fetch attempt (relay, target URL, header) to its outcome.
- **Assessor side.** A function maps a URL to its outcome.

Neither side performs I/O. The current year, which the age search reads from the clock, is also a parameter.

Modules:

- `Common`: `Option` and `Result`.
- `Text`:
  - character classes of JavaScript regular expressions;
  - `toLowerCase`, `includes`, `trim`, `split('/').pop()`;
  - leftmost-match search;
  - first-seen de-duplication.
- `Fhir`:
  - the JSON shapes the clients read;
  - fetch outcomes;
  - `formatName`, `getCodeText`, `formatObservationValue`.
- `Quality`: app.js. Imperative methods are proved against specification functions, and the properties are proved as lemmas.
- `Transport`: the relay plan of `makeRequest` and what a request yields.
- `Classifier`:
  - `extractPatientId`;
  - the name capture of the patient lookup;
  - the rule cascade of `processQuery`.
- `SearchParams`: the birth-date, gender and age search parameters.
- `Replies`: what each chat handler answers, as a function of the server's responses.
- `Bot`: the `FHIRChatBot` object. Its fields are the selected server and the smart-mode state. Each looping handler is a method proved equal to its function in `Replies`.

Two departures:

- **Reply content.** A reply carries structured content (listed resources, counts, groups) in place of the Markdown text the client renders.
- **The availability score.** The chat's score is computed as `accessible * 100 / 4` on integers. For 0 to 4 accessible types this equals the source's floating-point `(accessible / 4) * 100` exactly, which `Replies.AvailabilityScoreSteps` states.

## Model

| member | source | states |
|---|---|---|
| `Quality.ValidationOf` | app.js:92-134 | an OperationOutcome is invalid with one issue per outcome issue; anything else is valid; a Bundle gets the empty-resource issue exactly when `total` is 0 |
| `Quality.ValidateFhirResponse` | app.js:92-134 | the loop that copies outcome issues yields `ValidationOf`, each issue carrying the `unknown`/`No details` defaults |
| `Quality.QualityScore` | app.js:170-188 | the score lies in 0..100 and is 0 for an invalid response |
| `Quality.CalculateQualityScore` | app.js:170-188 | the per-issue deduction loop (30/10/5) with the floor at 0 computes `QualityScore` |
| `Quality.BundleScore` | app.js:118-133 | a Bundle scores 45 when `total` is 0, 50 when `total` is absent (empty penalty via `total || 0`), otherwise 100 |
| `Quality.PatientRefId` | app.js:141-148 | an id exactly for a truthy `Patient/` subject reference; the id is the slash-free segment after `Patient/`, ending at the next slash or the end (`split('/')[1]`) |
| `Quality.AllPatientRefIds` | app.js:141-148 | an id is listed exactly when some entry refers to that patient |
| `Quality.PatientRefIdsExact` | app.js:137-148 | the `Set` of referenced ids holds each referenced id exactly once |
| `Quality.PatientRefIdsSnoc` | app.js:141-148 | one more entry adds its patient id only when it is new |
| `Quality.OrphanCount` | app.js:150-165 | at most one orphan per distinct referenced id |
| `Quality.CheckOrphanedReferences` | app.js:136-168 | `total_refs` is the number of distinct ids; `orphaned_count` counts the lookups that answered 404 or threw, and never exceeds `total_refs` |
| `Quality.AssessResource` | app.js:36-90 | fetch, validation, scoring and orphan penalty give `AssessmentOf` |
| `Quality.HttpErrorIsInaccessible` | app.js:53-56 | a non-ok status leaves the resource inaccessible with score 0, no issues and the status text in the error |
| `Quality.NetworkErrorIsInaccessible` | app.js:80-87 | a thrown fetch leaves the resource inaccessible with a single `network-error` error issue |
| `Quality.OrphanPenalty` | app.js:66-77 | only a non-Patient type with `entry` and an unresolvable reference loses 20 points and gains an `orphaned-references` warning |
| `Quality.AssessmentScoreBounds` | app.js:36-90 | every resource scores in -20..100, and below 0 only for an OperationOutcome response |
| `Quality.AccessibleCount` | app.js:26-29 | the count of accessible resources never exceeds the number probed |
| `Quality.AssessmentsFollowTypes` | app.js:22-59 | each recorded assessment is keyed by the type probed at its position, and is accessible exactly when that type's listing got an ok response |
| `Quality.AssessServer` | app.js:9-34 | the loop over the four types records their assessments and the mean of the accessible scores (0 when none) |
| `Quality.SumBounds` | app.js:26-29 | per-resource score bounds carry over to the accumulated `totalScore` |
| `Quality.MeanBounds` | app.js:32 | the overall score lies within the per-resource bounds |
| `Quality.OverallScoreBounds` | app.js:9-34 | the overall score lies in -20..100, and in 0..100 when no probe answered with an OperationOutcome |
| `Quality.InaccessibleExcluded` | app.js:26-29 | an inaccessible resource changes neither the count nor the sum of the mean |
| `Quality.PerfectServer` | app.js:9-34 | four accessible perfect resources give an overall 100 |
| `Quality.ScoreBand` | app.js:249-266 | EXCELLENT from 80, GOOD from 60, FAIR from 40, POOR below, each an if-and-only-if |
| `Quality.BandMonotone` | app.js:249-266 | a higher score never lands in a lower band |
| `Text.Lower` | chat.js:20 | `toLowerCase` keeps the length and lowers each character |
| `Text.Trim` | chat.js:1262 | `trim` removes the white space at both ends and keeps the middle |
| `Text.LastSegment` | chat.js:893 | `split('/').pop()` has no slash and ends the reference |
| `Fhir.FormatName` | chat.js:1257-1263 | never empty; "Unknown Name" without names; otherwise trimmed |
| `Fhir.FormatNameGivenFamily` | chat.js:1257-1263 | given and family names render as `given family` |
| `Fhir.CodeText` | chat.js:1265-1272 | never empty; `text` wins when present; otherwise the first coding's display, else its code, else "Unknown"; "Unknown" without a code or without codings |
| `Fhir.ObservationValue` | chat.js:1274-1285 | never empty; a quantity renders as `value unit` ("undefined" without a value, an empty unit when absent); else a truthy string; else the code text of the coded value; else "No value recorded" |
| `Fhir.StatusCode` | chat.js:899 | the first coding's code when it is truthy, otherwise "unknown" |
| `Transport.Plan` | chat.js:553-573 | four attempts on localhost, one when hosted |
| `Transport.PlanShape` | chat.js:553-573 | on localhost the attempts go through codetabs, corsproxy.io, allorigins, then direct, all but the last sending `X-Requested-With`; hosted, one direct attempt without it; every attempt asks for the same target |
| `Transport.FirstFetched` | chat.js:566-597 | a found attempt succeeded; when none is found, the last attempt failed |
| `Transport.FirstFetchedIsFirst` | chat.js:566-597 | every attempt before the found one failed, and every attempt failed when none is found |
| `Transport.RequestSucceedsIffSomeAttempt` | chat.js:566-597 | a request succeeds exactly when some attempt does, with the body of the first that does |
| `Transport.LocalFailureNamesLastError` | chat.js:589-594 | a local failure reports the error of the direct (last) attempt inside the "All CORS proxies failed" message |
| `Transport.HostedIsDirect` | chat.js:598-615 | a hosted request is one direct fetch whose error is rethrown unchanged |
| `Classifier.FirstUuid` | chat.js:534 | the leftmost UUID-shaped match, none when no position matches |
| `Classifier.FirstKeywordToken` | chat.js:538 | the leftmost `patient`/`for`/`id`, white space, token match |
| `Classifier.FirstLongWord` | chat.js:542 | the leftmost word of eight or more letters and digits between word boundaries |
| `Classifier.UuidTier` | chat.js:533-535 | the UUID tier answers exactly when a UUID occurs, with the 36 characters at the leftmost one |
| `Classifier.KeywordTier` | chat.js:537-539 | the keyword tier answers exactly when its pattern matches, with the maximal run of id characters that follows the leftmost keyword and its white space |
| `Classifier.LongWordTier` | chat.js:541-543 | the long-word tier answers exactly when its pattern matches, with the leftmost word of eight or more letters and digits, bounded on both sides by non-word characters |
| `Classifier.ExtractPatientId` | chat.js:532-546 | null exactly when no tier matches; otherwise the UUID tier's answer, else the keyword tier's, else the long-word tier's; any id is a token occurring in the query |
| `Classifier.UuidWins` | chat.js:533-535 | a query containing a UUID yields a UUID, the leftmost one |
| `Classifier.FirstNameMatch` | chat.js:36 | the leftmost start at which the name pattern matches, none when it matches nowhere |
| `Classifier.NameCapture` | chat.js:36-37 | no capture exactly when the pattern matches nowhere; otherwise the capture at the leftmost match, a non-empty string of letters and white space |
| `Classifier.NameRun` | chat.js:36 | the greedy `[a-zA-Z\s]+` run at its start: non-empty, letters and white space only, and not followed by another such character |
| `Classifier.PatientLookup` | chat.js:31-42 | the lookup fires when an id or a name is found, and an id is preferred |
| `Classifier.Decide` | chat.js:19-104 | the help text is given exactly when no rule takes the query |
| `Classifier.DecideIsFirstMatch` | chat.js:19-104 | the query goes where the earliest rule that takes it sends it |
| `Classifier.AllPatientsWins` | chat.js:23-25 | any query mentioning "all patients" lists patients, whatever else it says |
| `Classifier.DiabetesBeforeMedication` | chat.js:27-29 | "patient" with "diabetes" goes to the diabetes search before any medication rule |
| `Classifier.ShowPatientsLacksDiabetes` | chat.js:23-29 | the exact phrase "show patients" cannot also trigger the diabetes rule |
| `Classifier.LookupFallsThrough` | chat.js:31-42 | a lookup phrase with neither id nor name falls through to later rules |
| `Classifier.GenderRuleCatchesFemale` | chat.js:84-87 | "female" with "patient" reaches the gender search once earlier rules pass |
| `SearchParams.FirstYear` | chat.js:1293 | the leftmost `\b(19\|20)\d{2}\b` match |
| `SearchParams.FindYear` | chat.js:1293-1295 | no year exactly when nothing matches; otherwise the four characters at the leftmost match (`yearMatch[0]`), a year in 1900..2099 |
| `SearchParams.YearValue` | chat.js:1293 | a `19xx`/`20xx` digit string denotes a year in 1900..2099 |
| `SearchParams.BirthDateParams` | chat.js:1287-1309 | `_count=20` always; the date bounds exactly when a year is found |
| `SearchParams.BirthDateRanges` | chat.js:1296-1309 | second half is July to December, first half or early is January to June, otherwise the whole year |
| `SearchParams.GenderOf` | chat.js:1345-1352 | "male" only without "female", "female" whenever it occurs, empty when neither |
| `SearchParams.FemaleMentionsMale` | chat.js:1348-1351 | a query saying "female" also contains "male", so the order of the tests matters |
| `SearchParams.GenderParams` | chat.js:1354 | the gender `GenderOf` picks (male, female or empty), then `_count=20` |
| `SearchParams.FirstAge` | chat.js:1393 | the leftmost match of the age pattern |
| `SearchParams.AgeOf` | chat.js:1393-1401 | no age exactly when the pattern matches nowhere; otherwise the value of the whole digit run at the leftmost match, with no digit before it |
| `SearchParams.AgeRange` | chat.js:1402-1410 | an age `a` asks for the whole calendar year `currentYear - a`, from `ge{y}-01-01` to `{y}-12-31` (the whole-year bounds of the birth-date search), then `_count=20` |
| `SearchParams.AgeNeedsNumberFirst` | chat.js:1393-1397 | "age 30", the example in the source's own warning, names no age: the number must come before the unit |
| `Replies.SearchReply` | chat.js:618-650 | error exactly when the request threw, warning exactly when no entries came back, success otherwise, with the handler's own messages |
| `Replies.SearchCap` | chat.js:1364-1375 | a capped listing shows exactly the first min(cap, entries) entries, counts the rest as "more", and reports the total as displayed (`bundle.total` or the entry count) |
| `Replies.SearchUncapped` | chat.js:629-638 | an uncapped listing shows every entry, counts none as "more", and reports the displayed total |
| `Replies.PatientFilter` | chat.js:950-954 | the observation, medication, condition and care-plan listings filter by patient exactly when `extractPatientId` finds an id, and then by that id |
| `Replies.SectionOf` | chat.js:805-833 | a related request that throws only marks its section unavailable |
| `Replies.PatientPartialSuccess` | chat.js:787-851 | the reply succeeds exactly when the patient is fetched, whatever the related requests do |
| `Replies.PatientErrors` | chat.js:838-849 | an error mentioning 404 reads as an unknown id; any other is passed on |
| `Replies.MatchingConditions` | chat.js:873-876 | a condition is kept exactly when its code text contains the search text, ignoring case |
| `Replies.ConditionPatientId` | chat.js:892-893 | only a truthy reference yields a patient id, without slashes |
| `Replies.ConditionPatientIdIsLastSegment` | chat.js:893 | the id is the text after the last slash of the reference (`split('/').pop()`), the whole reference when it has none |
| `Replies.ReferencedIds` | chat.js:890-893 | at most one id per condition |
| `Replies.GroupsOf` | chat.js:889-903 | one group per patient in first-reference order |
| `Replies.GroupsExact` | chat.js:889-903 | no patient is grouped twice, and every referenced patient has a group |
| `Replies.GroupsSnocUnreferenced` | chat.js:892 | a condition without a reference changes nothing |
| `Replies.GroupsSnocKnown` | chat.js:894-901 | a known patient gets one more note and the other groups stay |
| `Replies.GroupsSnocNew` | chat.js:894-901 | a new patient gets a new last group holding one note |
| `Replies.MatchesReply` | chat.js:905-932 | exactly min(5, patients) shown, the k-th being `ShownOf` the k-th group in map order; the rest counted as "more" |
| `Replies.ShownOf` | chat.js:915-928 | same patient id and notes; a name exactly when the `Patient/<id>` lookup succeeds, and then it is `formatName` of that patient's name; otherwise "demographics not available" |
| `Replies.ConditionReplyKinds` | chat.js:853-944 | error exactly when a request throws; warning exactly when neither search yields a matching condition |
| `Replies.FallbackFiltersByText` | chat.js:861-886 | after an empty `code:text` search the patients come from the filtered fallback |
| `Replies.NameSearchParams` | chat.js:1459-1463 | three searches are tried |
| `Replies.NameHitsOrder` | chat.js:1465-1477 | hits are concatenated in the order name, family, given |
| `Replies.DedupById` | chat.js:1480-1482 | de-duplication never adds entries |
| `Replies.DedupKeepsFirsts` | chat.js:1480-1482 | every kept entry is the first with its id |
| `Replies.DedupDistinctIds` | chat.js:1480-1482 | no two kept entries share an id |
| `Replies.DedupCoversIds` | chat.js:1480-1482 | every id found has a kept entry |
| `Replies.NameReplyOf` | chat.js:1456-1512 | a warning exactly when no search found anyone; otherwise a success, never an error |
| `Replies.OrphansAmong` | chat.js:1206-1217 | at most one orphan per inspected entry |
| `Replies.RowOf` | chat.js:1192-1228 | accessible exactly when the listing succeeds; at most three orphans; none for Patient |
| `Replies.AccessibleRows` | chat.js:1232 | never more accessible rows than rows |
| `Replies.AvailabilityOf` | chat.js:1237-1243 | good from 80, limited from 50, poor below |
| `Replies.QualityReplyOf` | chat.js:1245-1248 | the availability check always answers an info reply holding the report |
| `Replies.AvailabilityRowsFollowTypes` | chat.js:1187-1229 | one row per resource type, in probing order, each accessible exactly when that type's listing request succeeded |
| `Replies.AvailabilityScoreSteps` | chat.js:1233 | the score is 25 per accessible type |
| `Replies.AvailabilityBands` | chat.js:1233-1243 | good needs all four types, limited two or three, poor at most one |
| `Replies.OrphansDoNotAffectScore` | chat.js:1191-1233 | orphaned references never change the score |
| `Replies.UnmatchedIsHelp` | chat.js:89-103 | an unmatched query gets the help text as an info reply |
| `Bot.ChatBot.constructor` | chat.js:4-11 | a new bot has the page's server, smart mode off and no engine |
| `Bot.ChatBot.SelectServer` | chat.js:1674 | selecting a server changes only the server |
| `Bot.ChatBot.ToggleSmartMode` | chat.js:1624-1655 | the toggle flips smart mode; switching on loads the mock engine of `initializeWebLLM` and switching off drops it, so afterwards the engine is loaded exactly when smart mode is on |
| `Bot.ChatBot.MakeRequest` | chat.js:548-616 | the relay loop yields `Request`; the attempts made are a prefix of the plan, all but the last failed, and all were made on failure |
| `Bot.ChatBot.Get` | chat.js:548-616 | a request through the selected server yields `Fetch` of it |
| `Bot.ChatBot.RunSearch` | chat.js:618-650 | a list handler answers `SearchReply` of its request |
| `Bot.ChatBot.GetPatient` | chat.js:787-851 | `getPatient` answers `PatientReplyOf` |
| `Bot.FindGroup` | chat.js:894-897 | the index of the group holding the patient, or past the end when no earlier group does |
| `Bot.ChatBot.GroupByPatient` | chat.js:889-903 | the patient-map loop builds `GroupsOf` |
| `Bot.ChatBot.ListMatches` | chat.js:905-932 | the count-bounded loop builds `MatchesReply` |
| `Bot.ChatBot.FindPatientsWithCondition` | chat.js:853-944 | the handler answers `ConditionReplyOf` |
| `Bot.ChatBot.CollectNameHits` | chat.js:1465-1477 | the three searches, skipping the ones that throw, collect `NameHits` |
| `Bot.DedupEntries` | chat.js:1480-1482 | the `findIndex` filter keeps `DedupById` of the hits |
| `Bot.ChatBot.SearchPatientsByName` | chat.js:1456-1512 | the three searches and the filter answer `NameReplyOf` |
| `Bot.ChatBot.CheckOrphan` | chat.js:1208-1215 | an entry counts as an orphan exactly when it has a reference and the patient lookup throws |
| `Bot.ChatBot.CountOrphans` | chat.js:1207-1217 | the orphan loop counts `OrphansAmong` |
| `Bot.ChatBot.AssessDataQuality` | chat.js:1179-1255 | the per-type loop answers `QualityReplyOf` |
| `Bot.ChatBot.Execute` | chat.js:19-88 | each route runs its handler as `Answer` |
| `Bot.ChatBot.ExecuteListing` | chat.js:19-88 | a listing route runs its search as `Answer` |
| `Bot.ChatBot.ExecuteHandler` | chat.js:19-88 | every other route runs its handler as `Answer` |
| `Bot.ChatBot.ProcessQueryWithPatternMatching` | chat.js:432-512 | the cascade with the short help text |
| `Bot.ChatBot.ProcessQuery` | chat.js:13-104 | the smart path exactly when smart mode is on and an engine is loaded, otherwise the cascade with the long help text |

## Left out

- `processQueryWithLLM`, `processQueryWithLLMWebLLM` and `initializeWebLLM` are not modelled. They depend on a language-model engine, on scraping the page and on parsing its replies. `ProcessQuery` only reports that the smart path is taken.
- `searchPatientsWithParams` and `searchConditionsWithParams` are not modelled. Only the smart path calls them.
- Rendered text is not modelled: Markdown, emoji, and the fields that are only displayed (gender, birth date, address, dosage, dates). Success replies carry the resources and counts they are built from.
- Dates and locale are not modelled: `toLocaleDateString`, ISO timestamps, and the computed age shown per patient. The current year of the age search is a parameter.
- The fetch itself, JSON parsing, URL building and `encodeURIComponent` are not modelled. The network is an oracle from attempts or URLs to outcomes.
- The assessor's overall mean is a real number, not an IEEE double. `Math.round` in the score display and the floating-point printing of quantity values are not modelled.
- `Text.Lower` lowers ASCII letters only. Unicode case mappings of `toLowerCase` and the `i` flag are not modelled.
- A bundle entry without `resource`, and a non-array `name`, `given` or `issue`, are not modelled. These throw a TypeError in the source, and the projection of the JSON assumes well-formed shapes.
- `SearchParams.AgeOf` reads the digit run as an unbounded natural number. `parseInt` loses precision above 2^53.
- The outer `catch` of `assessDataQuality` ("Failed to assess data quality") is not modelled. Every request there is already caught per resource type, so it cannot be reached.
- The UI code outside the two classes is not modelled: the DOM, event handlers, local storage and the Puppeteer scripts. The server selection and the smart-mode toggle are kept as methods of the bot.
- Concurrency is not modelled. The source awaits each request in turn, and the model is sequential.

# cucumber-testrail-reporter, modelled in Dafny

This project models the core of a Cucumber reporter that publishes scenario results to the
TestRail test-management service. The core has three parts:

- **Case ids and results** (`lib/testrail.ts`), in modules `CaseIds` and `CaseResults`:
  - reading case ids from a scenario's tags or from its title;
  - folding a scenario's outcome into the map of per-case results (case id to passed flag and comment);
  - building the bulk results payload from that map.
- **The service client** (`lib/testRail-apis.ts`), in module `TestRailClient`. Class `TestRailApis`:
  - validates and defaults its configuration;
  - creates a run when none is configured;
  - sends per-case results and stops at the first "run already completed" error;
  - attaches case ids to a run.
- **The reporter** (`cucumber-testrail-reporter.ts`), in module `Reporter`. Class `CucumberTestRailReporter`:
  - validates its options;
  - sets up a run;
  - records each finished scenario into the JSON file of cases;
  - publishes that file to the service.

Modelling choices:

- **JSON file.** The JSON file of cases is the reporter's field `stored`. Reading the file yields `stored`, and writing the file replaces it. The constructor takes what the file holds; an unreadable file holds the empty map.
- **HTTP.** HTTP is a `Server`: a function from the requests sent so far and the next request to the reply. The client appends every request it sends to its field `sent`. The method contracts therefore state exactly which requests go out, in which order, with which payloads.
- **Clock.** The clock (`moment().format(...)`) is a string parameter `now`.
- **Object keys.** A JavaScript object enumerates its array-index keys (integers below 2^32 - 1) first, in ascending numeric order. `CaseResults.ObjectKeys` lists every case id in ascending order, so every loop over a map runs in ascending case id. This is exact for case ids below 2^32 - 1; larger ids are covered under "## Left out".
- **Title regex.** The title scan models the regular expression `\bT?C(\d+)\b` with the `g` flag step by step:
  - the word boundary;
  - trying `TC` before `C`;
  - greedy digits that backtrack to a boundary;
  - `exec` resuming from `lastIndex`.

  This scan is proved equal to a plain reading: the digits of every whole word (a maximal run of `[A-Za-z0-9_]`) that is `C<digits>` or `TC<digits>`.
- **Tag filter.** The tag filter `^@C\d(\d+)$` needs **two or more** digits, so `@C5` is ignored. The model follows the code here; a reading of "one or more digits" would also keep `@C5`.

## Model

| member | source | states |
|---|---|---|
| CaseIds.CaseIdsFromTags | lib/testrail.ts:3-13 | the ids pushed are `TagIds(tags)`: the numeric suffixes of the matching tags, in tag order |
| CaseIds.TagIdsExactly | lib/testrail.ts:4-12 | an id is returned iff some tag is `@C` followed by two or more digits with that value; there is one id per matching tag, never more than there are tags |
| CaseIds.TagIdsConcat | lib/testrail.ts:3-13 | extraction keeps input order and duplicates: the ids of `a + b` are the ids of `a` followed by the ids of `b` |
| CaseIds.TagIdsSingle | lib/testrail.ts:4-10 | a single tag yields its suffix if it matches `^@C\d(\d+)$` and nothing otherwise |
| CaseIds.NoCaseTagNoIds | lib/testrail.ts:4-12 | a tag list with no matching tag (the empty list included) yields no ids |
| CaseIds.CaseIdsFromTitle | lib/testrail.ts:15-24 | the `exec` loop pushes exactly `TitleIds(title)`, the groups of the successive global matches |
| CaseIds.NextMatch | lib/testrail.ts:17-19 | `exec` from `lastIndex` returns the leftmost match at or after it, and none when no later position matches |
| CaseIds.TitleIdsAreCaseTokens | lib/testrail.ts:15-24 | the title ids are, left to right, the digits of the whole words `C<digits>` or `TC<digits>`: non-overlapping and word-bounded |
| CaseIds.TitleIdsEmpty | lib/testrail.ts:16-23 | a title yields no ids iff none of its words is such a token |
| CaseResults.Merge | lib/testrail.ts:46-61 | a known case stays passed only if both results passed; its comment is the old one, a blank line, then the new one |
| CaseResults.Reconcile | lib/testrail.ts:42-71 | the loop over the ids builds `Reconciled(cases, caseIds, passed, comment)` |
| CaseResults.ReconciledEntry | lib/testrail.ts:42-70 | keys not named are unchanged; a new id gets `{passed, comment}` verbatim and a known id gets the merge, with repeated ids merging once per repetition |
| CaseResults.ReconciledKeys | lib/testrail.ts:42-70 | the keys afterwards are the old keys together with the named ids |
| CaseResults.StickyFailure | lib/testrail.ts:49-54 | a failed case never becomes passed again |
| CaseResults.ReplayEntry | lib/testrail.ts:42-70 | over a sequence of scenarios, a case is present iff it was present or named; it passed iff every scenario naming it passed; its comment is all their comments joined by blank lines |
| CaseResults.KeysComeFromScenarios | lib/testrail.ts:62-68 | starting from the empty map, the keys are exactly the ids the scenarios named |
| CaseResults.ObjectKeys | lib/testrail.ts:27 | `Object.keys` lists the map's keys in strictly ascending order, each key of the map and nothing else |
| CaseResults.ObjectKeysCount | lib/testrail.ts:27 | `Object.keys` has exactly one entry per key |
| CaseResults.StatusId | lib/testrail.ts:34 | the status is 1 iff the case passed and 5 iff it failed |
| CaseResults.ResultEntries | lib/testrail.ts:26-40 | payload entries come in ascending case id; each carries status 1 iff its case passed (5 iff failed) and its case's comment |
| CaseResults.ResultsPayload | lib/testrail.ts:26-40 | the loop builds `{ results: ResultEntries(cases) }` |
| CaseResults.ResultEntriesCoverCases | lib/testrail.ts:27-39 | the payload has one result per key of the map, and every key appears |
| TestRailClient.ValidateConfig | lib/testRail-apis.ts:166-173 | validation passes iff the configuration and its domain, username, password and projectId are all present; a missing configuration gives the "Missing testRailsOptions" message |
| TestRailClient.NumberOrZero | lib/testRail-apis.ts:34-36 | an absent suite id or run id defaults to 0, and a present one is kept |
| TestRailClient.TextOrEmpty | lib/testRail-apis.ts:35 | an absent run name defaults to "", and a present one is kept |
| TestRailClient.IncludeAllOrTrue | lib/testRail-apis.ts:37 | include-all is off iff it was given as `false` |
| TestRailClient.IdOf | lib/testRail-apis.ts:66-67 | a successful reply yields its id; an error reply yields its message as the failure |
| TestRailClient.RunPayloadFor | lib/testRail-apis.ts:61-65 | the run payload carries the name and include-all, and has a suite id iff the suite id is non-zero |
| TestRailClient.CreateRunExchange | lib/testRail-apis.ts:57-76 | a configured name is kept; with no name and no suite the name is "Automation Run - " and the time. With a name or no suite, exactly one `add_run` with the run payload is sent, and the result is that reply's id or its error message. With no name and a suite, `get_suite` is sent first. If it fails, nothing else is sent and its message is the failure. Otherwise the run is named after the suite and the time, and `add_run` follows; its reply's id or error is the result |
| TestRailClient.CasePayloadFor | lib/testRail-apis.ts:102-106 | the per-case payload has status 1 iff passed (5 iff failed), the case's comment, and `custom_executed` 9 |
| TestRailClient.PushLogStopsAtClosedRun | lib/testRail-apis.ts:98-120 | the loop posts one result per key in key order; no reply before the last stops it; it ends early only right after an error saying the run is already completed |
| TestRailClient.PushLogSendsAllUnlessClosed | lib/testRail-apis.ts:107-119 | when no reply is a closed-run error, including invalid-case errors, every key is posted |
| TestRailClient.TestRailApis.constructor | lib/testRail-apis.ts:26-37 | the fields are the domain plus "/index.php?", the project id, and the defaulted suite id, run name, run id and include-all; nothing has been sent |
| TestRailClient.CreateTestRailApis | lib/testRail-apis.ts:26-37 | construction fails iff validation fails, with validation's message, and otherwise builds the client as above |
| TestRailClient.TestRailApis.CreateTestRunNameFromSuite | lib/testRail-apis.ts:71-76 | sends `get_suite` for the suite id and returns the suite's name, " \| " and the time, or the failure of the fetch |
| TestRailClient.TestRailApis.CreateNewTestRun | lib/testRail-apis.ts:57-69 | sends exactly the requests of `CreateRunExchange`, leaves its run name, and returns its result |
| TestRailClient.TestRailApis.SetupTestRun | lib/testRail-apis.ts:47-55 | a non-zero run id is returned unchanged with nothing sent; with run id 0 a run is created and its id becomes the run id; a failed creation leaves the run id 0 |
| TestRailClient.TestRailApis.UpdateTestResultsToRun | lib/testRail-apis.ts:78-87 | posts the bulk payload to the current run once, whatever the reply |
| TestRailClient.TestRailApis.UpdateCaseResultToRun | lib/testRail-apis.ts:144-148 | posts one case's payload to the current run and returns the reply |
| TestRailClient.TestRailApis.UpdateCaseResultsIndividuallyToRun | lib/testRail-apis.ts:96-121 | the requests sent are `PushLog` over the map's keys in ascending order |
| TestRailClient.TestRailApis.AddTestCasesToRun | lib/testRail-apis.ts:123-136 | posts `update_run` with include-all false and the given case ids, whatever the reply |
| Reporter.ValidateOptions | cucumber-testrail-reporter.ts:75-85 | options pass iff they are present, `isTestRailRun` is present, and a non-empty `getCaseIdFrom` is "tags" or "title" |
| Reporter.ConstructionError | cucumber-testrail-reporter.ts:31-45 | construction throws iff the reporter's checks or the client's checks fail, the reporter's first |
| Reporter.CaseIdSourceOf | cucumber-testrail-reporter.ts:38 | ids are read from the title iff `getCaseIdFrom` is "title", and from tags otherwise |
| Reporter.AddsTestCases | cucumber-testrail-reporter.ts:42-44 | cases are attached iff no run id is given and include-all is explicitly false, which means the run id defaults to 0 and include-all is off |
| Reporter.ScenarioContribution | cucumber-testrail-reporter.ts:52-60 | a scenario passes iff its status is "PASSED"; its ids come from tags or title as configured; its comment names the scenario and its status |
| Reporter.ScenarioReportsItsCases | cucumber-testrail-reporter.ts:57 | a scenario reports exactly the case ids its tags carry, or the case tokens of its title |
| Reporter.CucumberTestRailReporter.constructor | cucumber-testrail-reporter.ts:31-45 | the JSON location defaults to "./testRail.json"; the id source, the flag and `addTestCases` are set as above. The client is new and built from the service configuration: its domain plus "/index.php?", its project id, and the defaulted suite id, run name, run id and include-all; nothing has been sent |
| Reporter.CreateReporter | cucumber-testrail-reporter.ts:31-45 | construction fails iff `ConstructionError` reports an error, with that message; otherwise every field of the reporter and of its new client is set as the constructor states |
| Reporter.CucumberTestRailReporter.SetupTestRun | cucumber-testrail-reporter.ts:46-51 | disabled: nothing changes. Enabled: the client sets up the run, then the stored cases are emptied. A failed setup leaves them alone, and the client's run id stays 0 |
| Reporter.CucumberTestRailReporter.AfterScenario | cucumber-testrail-reporter.ts:52-62 | the stored cases become the scenario's contribution reconciled into them, whether or not reporting is on |
| Reporter.CucumberTestRailReporter.Publish | cucumber-testrail-reporter.ts:63-74 | disabled: nothing is sent. Enabled: an attach request with all stored keys if `addTestCases`, then the per-case results |
| Reporter.PublishSendsRecordedCases | cucumber-testrail-reporter.ts:65-69 | every result published is for a stored case, in strictly ascending case id, with status 1 iff that case passed and that case's comment |
| Reporter.PublishStopsOnlyAtClosedRun | cucumber-testrail-reporter.ts:65-69 | publishing posts at most one result per stored case and at least one when there are cases; it posts fewer than all only right after a reply saying the run is already completed |

## Left out

- Reading and writing the JSON file (`fs`, `JSON.parse`, `JSON.stringify`) is modelled as the field `stored`. A failed write is not modelled.
- HTTP (axios), the Basic authentication header (Base64 `Buffer`) and the base URL are left out. Each call is a request that the `Server` function answers.
- An error thrown without a service reply would crash at `error.response.data.error`. That crash is left out: every error is a reply with a message.
- `moment` timestamps are left out; the time is the string parameter `now`.
- `getSuiteDetails` is not a separate member. `TestRailApis.CreateTestRunNameFromSuite` sends its `get_suite` request itself.
- async/await and `Promise.all` are modelled as sequential execution.
- `console.log` and `console.error` output is left out.
- CaseResults.ObjectKeys: it sorts every case id in ascending order. JavaScript orders only keys below 2^32 - 1 this way; it lists larger integer keys after them in creation order. The model does not capture that order for ids of 2^32 - 1 or more. That order reaches the attach payload and the per-case requests.
- JavaScript numbers are modelled as unbounded integers. Case ids beyond 2^53, where `Number` and `parseInt` lose precision, are not modelled.
- The suite id is sent as a string; the model keeps it as a number.
- The attach request sends `Object.keys(cases)`, so its case ids are strings such as "101". The model keeps them as numbers in `AttachPayload`.
- Comments are always strings. An absent comment would print as "undefined", and that case is not modelled.
- `null` and `undefined` are both modelled as `None`. `addTestCases` checks `runId === undefined`, so a `null` run id would differ; that is not modelled.
- Reconcile updates the caller's object in place and returns it. The model returns the new map as a value, so aliasing of that object is not modelled.

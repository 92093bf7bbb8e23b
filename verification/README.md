# Scan job core of the aishield scanner service, in Dafny

The service accepts a target URL, creates a scan job, runs a scanner against the URL in the background and has an AI completion API summarise the findings. When no API key is set, or the API call fails, it falls back to a deterministic summary built from per-severity counts. This project models the part of the service that does not depend on those external systems:

- `types.dfy` (module `Types`) holds the records and enumerations of `lib/types.ts`: `Severity`, `ScanStatus`, `Finding` and `Scan`. It also holds the `Option`/`Result` wrappers used for optional fields and failing operations. A finding always has an id, name, severity and matched location, and its description and tags are `Option`s. A scan always has a findings list, and its AI summary and error message are `Option`s.
- `text.dfy` (module `Text`) holds three JavaScript built-ins the code calls: `String.prototype.trim` (with the ECMAScript whitespace set), the decimal rendering of a count inside a template literal, and `Array.prototype.join`. It also holds `Split`, which the code never calls. `Split` is the reference reader that the properties of the summary text are stated against. Each helper comes with the property that characterises it: trim of padded text, decimal read-back, and the split/join round trips.
- `ai.dfy` (module `Summary`) models `lib/ai.ts`:
  - the fallback summariser, including the `countsBySeverity` reduce and the five guarded `parts.push` calls;
  - the truncation of the findings placed in the remote prompt;
  - the error handling of the remote summariser;
  - the dispatch in `summariseFindings`.

  The main result is that the fallback summary can be read back into exactly the per-severity counts it was built from.
- `store.dfy` (module `Store`) models `lib/store.ts` as a `map<string, Scan>` threaded through `CreateScan`, `UpdateScan` and `GetScan`. The generated id and the clock reading are parameters.
- `scan_route.dfy` (module `ScanRoute`) models the `POST` handler of `app/api/scan/route.ts`:
  - request validation, job creation and the response;
  - the background task, as a sequential method;
  - the job lifecycle `pending → running → complete | error`.

Facts about the code that the model follows:
- Job creation only checks that the URL is a string that is non-empty after trimming. There is no http/https scheme check.
- The only scanner is the canned mock. The code does no scanner selection and no severity normalisation.
- The background task runs synchronously up to its first `await`, the scanner call. So the job is already stored as `running` when the 201 response is returned, and no poll ever sees it `pending`.
- A request body that is the JSON value `null` makes `body.url` throw. It therefore yields status 500 ("Failed to start scan"), not a client error.
- The summariser never throws, so the only route to the `error` state is a failing scanner. `ScanRoute.RunScanTask` proves this: the job completes exactly when the scanner returns findings.

## Model

| member | source | states |
|---|---|---|
| `Types.ParseSeverity` | lib/types.ts:1 | A string denotes a severity exactly when it is one of the five names, and each name denotes exactly one severity. |
| `Types.ParseStatus` | lib/types.ts:12 | A string denotes a status exactly when it is one of the four names, and each name denotes exactly one status. |
| `Text.Trim` | app/api/scan/route.ts:9 | Trim leaves no whitespace at either end. It returns the empty string exactly when the input is all whitespace, and never lengthens its input. |
| `Text.TrimPadded` | app/api/scan/route.ts:9 | Trim returns exactly the text that remains after removing the surrounding whitespace, for any padding on either side. |
| `Text.TrimIdempotent` | app/api/scan/route.ts:9 | Trimming a trimmed URL changes nothing. |
| `Text.DigitsValueOfNatToString` | lib/ai.ts:21 | The decimal text a count is rendered as reads back as that count. |
| `Text.SplitJoin` | lib/ai.ts:37 | Splitting the `"\n"`-joined parts on `"\n"` gives the parts back, when no part contains a line break. |
| `Text.JoinSplit` | lib/ai.ts:37 | Joining the pieces of a split restores the original text. |
| `Summary.TallyCounts` | lib/ai.ts:11-14 | The record built by the reduce has a key exactly for each severity that occurs, and the key's value is the number of findings with that severity. |
| `Summary.TallyIsPositiveCounts` | lib/ai.ts:11-14 | The reduce's record equals the map from each occurring severity to its number of occurrences in the multiset of severities. |
| `Summary.CountsSumToLength` | lib/ai.ts:11-14 | The five per-severity counts add up to the number of findings. |
| `Summary.FallbackSummary` | lib/ai.ts:3-38 | With no findings the summary is exactly `No issues were detected for {url} in this scan.` With findings, it starts with `Security scan summary for {url}:`. |
| `Summary.FallbackLinesInOrder` | lib/ai.ts:16-35 | The pushed parts are the header followed by one line per occurring severity, in the order critical, high, medium, low, info. Each line carries its severity's count. |
| `Summary.PresentSeverities` | lib/ai.ts:19-35 | A severity gets a line if and only if its count is positive. Lines appear in strictly increasing order critical, high, medium, low, info, so there are at most five. |
| `Summary.ParseSeverityLineRoundTrip` | lib/ai.ts:19-35 | Every severity line reads back as the severity and the count it was made from. |
| `Summary.FallbackSummaryLines` | lib/ai.ts:16-37 | For a URL without a line break, splitting the summary on `"\n"` gives the header and then the severity lines. That is 1 + (number of occurring severities) lines, at most 6. |
| `Summary.FallbackSummaryReportsCounts` | lib/ai.ts:7-37 | For a URL without a line break, reading the summary back yields exactly the occurring severities with their counts. With no findings it yields nothing. |
| `Summary.FallbackIgnoresOrderAndDetail` | lib/ai.ts:11-37 | Two finding lists with the same multiset of severities get the same summary, whatever their order and other fields. |
| `Summary.BuildPrompt` | lib/ai.ts:49-52 | The prompt shows a prefix of the findings: all of them up to 50, otherwise the first 50. The truncation note is non-empty exactly when there are more than 50. |
| `Summary.TruncationNoteStatesTotal` | lib/ai.ts:52 | When findings are left out, the note states their total number. |
| `Summary.DeepSeekSummary` | lib/ai.ts:40-125 | Without a key the call fails with `DEEPSEEK_API_KEY not set`. It succeeds exactly when a key is set and the reply has non-empty content, and it then returns that content trimmed. Every other reply is a failure. |
| `Summary.SummariseFindings` | lib/ai.ts:127-145 | Without a key the result is the fallback summary, and so is it when the remote summariser fails. Otherwise it is the trimmed remote content. It never fails. |
| `Store.CreateScan` | lib/store.ts:19-32 | The new record has the given URL and id, status pending, no findings, no summary or error, and `createdAt == updatedAt`. A get of its id returns it, and the entries for all other ids are unchanged. |
| `Store.UpdateScan` | lib/store.ts:34-37 | Only `updatedAt` changes, and it is set to the current time. The stamped record is stored under its own id, where a get returns it, and the entries for all other ids are unchanged. |
| `Store.GetScan` | lib/store.ts:39-41 | A get returns a record exactly when the id is stored, and then it returns the stored record. An unknown id gives nothing, never a default record. |
| `Store.CreateWithFreshId` | lib/store.ts:22-30 | Creating under a fresh id adds exactly one entry and keeps every existing record. |
| `Store.OperationsKeepKeyedById` | lib/store.ts:30-36 | Create and update keep every record filed under its own id. |
| `ScanRoute.RequestedUrl` | app/api/scan/route.ts:9 | The URL taken from the body is trimmed. It is empty exactly when `url` is not a string or is all whitespace. |
| `ScanRoute.StartScan` | app/api/scan/route.ts:7-39 | A malformed or null body gives 500 `Failed to start scan`. A missing, non-string or blank URL gives 400 `Invalid URL`. In both cases no job is created and the store is unchanged. Otherwise the response is 201 with the new id, and the stored job is pending, consistent and has the trimmed URL. |
| `ScanRoute.RunScanTask` | app/api/scan/route.ts:17-34 | The job is stored as running before the scan. It ends complete, with the scanner's findings and the summariser's text, exactly when the scanner returns findings. Otherwise it ends in error with the thrown error's message or `Unexpected error`. Only this job's entry changes, and a consistent pending job stays consistent. |
| `ScanRoute.HandleScanRequest` | app/api/scan/route.ts:6-40 | The response is 500 exactly for a malformed or null body, 400 exactly for a missing, non-string or blank URL, and 201 exactly when the trimmed URL is non-empty. When the 201 response leaves, the job is already stored under its id as running, with the trimmed URL, no findings, summary or error, created at the creation time and stamped with the running update's time. A created job passes through exactly pending, running and then complete or error. Each step is an allowed move. The final record keeps its id, URL and creation time and is stamped with the finishing time. If the scanner returned findings, the record is complete with those findings and the summariser's text. Otherwise it is in error with the thrown value's message and no findings or summary. A rejected request leaves the store unchanged. Other jobs' entries are never touched. |
| `ScanRoute.TerminalStatusIsFinal` | app/api/scan/route.ts:19-32 | Any run of allowed moves has at most three statuses, and a terminal status (complete or error) can only be the last. |

## Left out

- The user interface is client plumbing and is left out. `app/page.tsx` only repeats the server's non-empty check. `app/scan/[id]/page.tsx` polls the GET endpoint every 2.5 s until the status is terminal or a fetch fails. `app/layout.tsx` has no logic.
- The polling endpoint `app/api/scan/[id]/route.ts` is left out, and so is its 404 response. Its lookup is `Store.GetScan`.
- `runMockScan` (a timer returning canned JSON) is the parameter `scanner` of the task, a call that returns findings or throws. The canned data file is not part of this model.
- The HTTP request to the completion API, the fixed prompt wording, the system message, the model parameters and the JSON serialisation of the findings are all left out. The endpoint is the parameter `remote`, from the prompt's variable parts to a reply: an HTTP failure, a parsed reply with or without content, or a failed request. `Summary.Prompt` keeps only the URL, the findings shown and the truncation note.
- `crypto.randomUUID()` and `new Date().toISOString()` are parameters: an id and clock readings. Nothing is claimed about timestamp order, because the code does not guarantee it.
- The fire-and-forget concurrency of the background task is left out. Its synchronous prefix (the running update and the scanner call) happens before the 201 response is returned, and `ScanRoute.HandleScanRequest` returns the store as of that moment. What follows the scanner's `await` runs as a sequential continuation; other requests may interleave there. Other jobs' entries are shown untouched, which is what lets concurrent jobs be independent. The mutations of the shared scan object happen without an intervening `await` before each `updateScan`, so treating records as values loses nothing observable.
- Logging (`console.log`, `console.warn`, `console.error`) is left out.
- `Summary.DeepSeekSummary`: message content that is not a string is modelled as missing content. For falsy content (`0`, `false`, `null`) the source also fails with "No summary content". For truthy non-string content it throws a `TypeError` from `trim` instead; `summariseFindings` discards the message either way. A failed `response.json()` is modelled as a failed request.
- `Summary.FallbackSummaryLines` and `Summary.FallbackSummaryReportsCounts` assume a URL with no line break. The source does not exclude one, and a line break in the URL would add lines to the header.
- Counts and HTTP status codes are unbounded integers. JavaScript numbers are exact far beyond any possible number of findings.
- Strings are sequences of Unicode scalar values rather than UTF-16 code units.

Writing the Dafny proofs exposed no defect in the source.

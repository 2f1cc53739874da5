# SentryPrime scan pipeline, modelled in Dafny

SentryPrime scans websites for accessibility problems. This project models its deterministic core and proves properties of it:

- **Compliance scorer** (`ComplianceScorer`, `compliance_scorer.dfy`). `processAxeResults` turns an axe-core run into the service's scan result. That covers the violation mapping, the four severity buckets, the passed and total rule counts, and the weighted 0–100 score. `Math.round` is exact integer arithmetic here, and `0 / 0` gives NaN.
- **Scan record and request shapes.** `ScanEntity` (`scan_entity.dfy`) holds the `scans` row and its status enum, defaults and column bounds. `ScanDtos` (`scan_dto.dfy`) holds the class-validator constraints of `ScanDto` and `CreateScanDto`. `Json` (`json.dfy`) holds the JavaScript values a request field or a result can hold, and their truthiness.
- **Scan queue service** (`ScanQueue`, `scan_queue.dfy`):
  - how `addScanJob` builds job options, with the job id equal to the scan id and the `||` defaults;
  - how the worker's processor turns the scanner's outcome into a job result; it never throws;
  - `getJobStatus` and `getQueueStats`.

  The BullMQ queue itself is foreign code that the service only configures. `ScanQueueService` gives it the behaviour its configuration asks for: a duplicate job id keeps the existing job, at most 3 jobs are active, and at most 10 jobs are taken per 60000 ms. That part is library semantics, and the rate limit is idealised as a sliding window (see "## Left out").
- **Scan service** (`ScanService`, `scan_service.dfy`). `create`, `updateScanStatus`, `findAll` and `findOne` run over the `scans` table, kept as a map from id to row, and the queue object. The id the database generates, the clock, and database or queue failures are parameters.
- **Client session store** (`ActiveScansStore`, `active_scans_store.dfy`). `keyOf` is `String(id)`. `activeScansStore` keeps the running scans as JSON under the session key `activeScans`.
- **Client poller** (`PollController`, `poll_controller.dfy`). This is the `WebsiteManager` component: `handleScan`, the `poll`/`tick` loop over an attempt counter capped at 300, `resumeActiveScans`, and the timer clean-up on unmount.
  - Every asynchronous step is split at its `await`. The first half sends a request, which is recorded in `inflight`. A `Settle…` method runs the second half when the reply arrives, so the component may be unmounted in between.
  - Pending `setTimeout` callbacks are kept by handle. Replies, thrown messages and the clock are parameters.

`Wrappers` (`wrappers.dfy`) defines `Option` and `Result`.

## Model

| member | source | states |
|---|---|---|
| ComplianceScorer.ToViolationNode | apps/backend/src/accessibility/accessibility-scanner.service.ts:155-159 | html and target are copied; a missing or empty `failureSummary` becomes `'No failure summary available'`; the summary is never empty |
| ComplianceScorer.ToViolation | apps/backend/src/accessibility/accessibility-scanner.service.ts:148-160 | every field is copied unchanged (the impact too, unchecked, so a missing impact stays missing); nodes are mapped one for one, in order |
| ComplianceScorer.MapSeq | apps/backend/src/accessibility/accessibility-scanner.service.ts:148 | `map` keeps the length and maps element k to f of element k |
| ComplianceScorer.CountImpact | apps/backend/src/accessibility/accessibility-scanner.service.ts:164-167 | a bucket never exceeds the number of violations |
| ComplianceScorer.CountViolations | apps/backend/src/accessibility/accessibility-scanner.service.ts:163-169 | `total` is the number of violations |
| ComplianceScorer.CountImpactIsOccurrences | apps/backend/src/accessibility/accessibility-scanner.service.ts:164-167 | each bucket equals the number of occurrences of its impact in the multiset of the violations' impacts (an order-free reference for the filter) |
| ComplianceScorer.BucketsPartitionTotal | apps/backend/src/accessibility/accessibility-scanner.service.ts:163-169 | the four buckets plus the violations with no impact make up `total`; so the buckets sum to at most `total`, and to exactly `total` when every violation has an impact |
| ComplianceScorer.WeightedViolations | apps/backend/src/accessibility/accessibility-scanner.service.ts:176-180 | every counted violation weighs between 1 and 4, so the weighted sum lies between the number of counted violations and 4 times it |
| ComplianceScorer.WeightedBound | apps/backend/src/accessibility/accessibility-scanner.service.ts:176-183 | `4·critical + 3·serious + 2·moderate + minor` is at most 4 × the number of violations, hence at most `maxPossibleScore` |
| ComplianceScorer.RoundPercent | apps/backend/src/accessibility/accessibility-scanner.service.ts:185 | the integer r is `Math.round(a / m * 100)`: `2mr ≤ 200a + m < 2mr + 2m` |
| ComplianceScorer.RoundPercentBounds | apps/backend/src/accessibility/accessibility-scanner.service.ts:185 | for `0 ≤ a ≤ m` the rounded percentage lies in 0..100 |
| ComplianceScorer.RoundPercentMonotone | apps/backend/src/accessibility/accessibility-scanner.service.ts:185 | a larger ratio never rounds to a smaller percentage |
| ComplianceScorer.ComplianceScore | apps/backend/src/accessibility/accessibility-scanner.service.ts:183-185 | the score is NaN exactly when `totalRules = 0`; otherwise it lies in 0..100 and is the rounded `100·(max − weighted)/max` |
| ComplianceScorer.ProcessAxeResults | apps/backend/src/accessibility/accessibility-scanner.service.ts:141-198 | url and duration are passed through; `wcagLevel` is always AA; violations are mapped in order; `total` = violations; `passedRules` = passes; `totalRules` = passes + violations ≥ `passedRules`; `violationCount` is the bucket count of the mapped violations; the score is NaN iff `totalRules = 0`, else in 0..100 and equal to the rounded percentage of `max − weighted` over `max = 4·totalRules` |
| ComplianceScorer.ScoreDefinedWhenRulesExist | apps/backend/src/accessibility/accessibility-scanner.service.ts:172-185 | with at least one rule the score is the rounded percentage of `max − weighted` over `max`, and the clamp at 0 never takes effect |
| ComplianceScorer.EmptyRunScoresNaN | apps/backend/src/accessibility/accessibility-scanner.service.ts:183-185 | a run with no passes and no violations scores NaN, not 0 |
| ComplianceScorer.NoViolationsScoresHundred | apps/backend/src/accessibility/accessibility-scanner.service.ts:172-185 | passes and no violations give 100 |
| ComplianceScorer.WorkedExampleScoresNinetyTwo | apps/backend/src/accessibility/accessibility-scanner.service.ts:172-185 | 27 passes, 1 critical and 2 serious violations give `round(100·110/120) = 92` |
| ComplianceScorer.MinorViolationCanRaiseScore | apps/backend/src/accessibility/accessibility-scanner.service.ts:172-185 | one critical violation alone scores 0, and adding a minor violation raises the score to 38 (a new violation also adds a rule) |
| ComplianceScorer.CriticalNeverRaisesComplianceScore | apps/backend/src/accessibility/accessibility-scanner.service.ts:176-185 | one more rule that is a critical violation never raises the score |
| ComplianceScorer.PassNeverLowersComplianceScore | apps/backend/src/accessibility/accessibility-scanner.service.ts:176-185 | one more passed rule never lowers the score |
| ComplianceScorer.CriticalViolationNeverRaisesScore | apps/backend/src/accessibility/accessibility-scanner.service.ts:32 | "higher is better" at run level: appending a critical violation, passes unchanged, never raises the score |
| ComplianceScorer.PassNeverLowersScore | apps/backend/src/accessibility/accessibility-scanner.service.ts:32 | appending a passed rule, violations unchanged, never lowers the score |
| ScanEntity.StatusLabel | apps/backend/src/entities/scan.entity.ts:14-19 | the label stored for a status is accepted by the column and reads back as that status |
| ScanEntity.FitsColumns | apps/backend/src/entities/scan.entity.ts:8-12 | `url` fits varchar(2048) and `userId` fits varchar(255) |
| ScanEntity.ParseStatus | apps/backend/src/entities/scan.entity.ts:14-19 | the status column accepts exactly `pending`, `completed` and `failed` |
| ScanEntity.StatusLabelRoundTrip | apps/backend/src/entities/scan.entity.ts:14-19 | a label the column accepts belongs to one status only: parsing a text to a status means the text is that status's label |
| ScanEntity.NoProcessingStatus | apps/backend/src/entities/scan.entity.ts:16 | `processing` is not a status |
| ScanEntity.NewScan | apps/backend/src/entities/scan.entity.ts:5-28 | a new row has the generated id, the given url and user, status `pending` by default and no results; `createdAt` is the time the application gives, `updatedAt` the database's insert time; it fits the varchar bounds 2048 and 255 |
| ScanDtos.CheckRequiredString | packages/common/src/dtos/Scan.dto.ts:4-6 | no error exactly when the field is a non-empty string; errors name that field |
| ScanDtos.CheckOptionalObject | packages/common/src/dtos/Scan.dto.ts:8-10 | no error exactly when the field is null, undefined or an object |
| ScanDtos.ValidateScanDto | packages/common/src/dtos/Scan.dto.ts:3-11 | every error names `url` or `options`; at most the three constraints fail |
| ScanDtos.ValidateCreateScanDto | packages/common/src/dtos/Scan.dto.ts:13-25 | the `ScanDto` errors come first, unchanged; every error names `url`, `options` or `userId` |
| ScanDtos.ScanDtoValidatorIsExact | packages/common/src/dtos/Scan.dto.ts:3-11 | a `ScanDto` validates iff `url` is a non-empty string and `options` is absent or an object |
| ScanDtos.CreateScanDtoValidatorIsExact | packages/common/src/dtos/Scan.dto.ts:13-25 | a `CreateScanDto` validates iff in addition `userId` is a non-empty string; an error on `url` or `userId` means that field is bad |
| ScanDtos.NoUrlFormatCheck | packages/common/src/dtos/Scan.dto.ts:14-16 | `"not-a-url"` passes both validators |
| ScanDtos.OptionsNeverRequired | packages/common/src/dtos/Scan.dto.ts:18-20 | replacing `options` by null or undefined keeps a valid DTO valid |
| ScanDtos.CreateRequiresUserId | packages/common/src/dtos/Scan.dto.ts:22-24 | a valid `CreateScanDto` has a valid `ScanDto` part; a missing `userId` fails |
| ScanQueue.ErrorMessage | apps/backend/src/queue/scan-queue.service.ts:202 | an Error gives its message, anything else `'Unknown error occurred'` |
| ScanQueue.OrDefault | apps/backend/src/queue/scan-queue.service.ts:192-193 | `v \|\| d`: absent and 0 both give the default |
| ScanQueue.BuildJobOptions | apps/backend/src/queue/scan-queue.service.ts:188-195 | job id = scan id; priority and attempts are the `\|\|` defaults |
| ScanQueue.JobOptionsDefaults | apps/backend/src/queue/scan-queue.service.ts:192-194 | missing or 0 priority gives 0; missing or 0 retry count gives 3 attempts; any other count is kept |
| ScanQueue.AddScanJobError | apps/backend/src/queue/scan-queue.service.ts:201-205 | the rethrown message is `'Failed to add scan job: '` followed by the cause's message |
| ScanQueue.RunProcessor | apps/backend/src/queue/scan-queue.service.ts:121-162 | never throws: success carries the scan result and no error, failure carries the error message and no result; the scan id and duration are passed through; progress starts at 10 and ends at 100 exactly on success |
| ScanQueue.ProcessorProgressRises | apps/backend/src/queue/scan-queue.service.ts:129-140 | reported progress strictly increases; on success it is 10, 90, 100 |
| ScanQueue.StatsOf | apps/backend/src/queue/scan-queue.service.ts:231-257 | `total` is the sum of the four counts; a failed read gives all zeros and the error message |
| ScanQueue.StatusOf | apps/backend/src/queue/scan-queue.service.ts:215-223 | the status copies id, data, progress, `processedOn`, `finishedOn`, `failedReason` and the return value of the job |
| ScanQueue.StateCountsPartitionJobs | apps/backend/src/queue/scan-queue.service.ts:238-243 | the four state counts add up to the number of jobs |
| ScanQueue.ScanQueueService.constructor | apps/backend/src/queue/scan-queue.service.ts:90-100 | the queue starts empty |
| ScanQueue.ScanQueueService.AddScanJob | apps/backend/src/queue/scan-queue.service.ts:184-206 | on failure the prefixed error and no change; a known job id returns the existing job; otherwise one new waiting job keyed by the scan id with `BuildJobOptions`; jobs are never failed or retried |
| ScanQueue.ScanQueueService.Dispatch | apps/backend/src/queue/scan-queue.service.ts:163-170 | a waiting job is taken iff fewer than 3 are active and fewer than 10 were taken in the last 60000 ms (a sliding window); afterwards at most 10 lie in the window |
| ScanQueue.ScanQueueService.Process | apps/backend/src/queue/scan-queue.service.ts:121-162 | an active job always ends `completed` after one attempt, carrying `RunProcessor`'s value and final progress |
| ScanQueue.ScanQueueService.GetJobStatus | apps/backend/src/queue/scan-queue.service.ts:208-229 | null for an unknown id or when the lookup throws; otherwise the job's status |
| ScanQueue.ScanQueueService.GetQueueStats | apps/backend/src/queue/scan-queue.service.ts:231-257 | `total` = sum of counts = number of jobs, nothing failed, at most 3 active; a failed read gives zeros and the error |
| ScanService.BuildUpdateData | apps/backend/src/scan/scan.service.ts:67-71 | status and `updatedAt` are always set; `result` and `completedAt` are set exactly when the result is truthy |
| ScanService.UpdateMissesResultsColumn | apps/backend/src/scan/scan.service.ts:67-73 | the update never names the `results` column; `result` and `completedAt` are exactly its properties that are not columns |
| ScanService.InsertNewestFirst | apps/backend/src/scan/scan.service.ts:23-25 | inserting a row adds exactly that row (as a multiset) |
| ScanService.InsertNewestFirstMembers | apps/backend/src/scan/scan.service.ts:23-25 | after insertion the rows are the old rows and the new one |
| ScanService.InsertKeepsNewestFirst | apps/backend/src/scan/scan.service.ts:24 | insertion keeps a list ordered by `createdAt` descending |
| ScanService.InsertKeepsIdsDistinct | apps/backend/src/scan/scan.service.ts:23-25 | inserting a row with a new id keeps ids distinct |
| ScanService.CollectNewestFirst | apps/backend/src/scan/scan.service.ts:21-26 | the result holds every row of the table once, with distinct ids, newest first |
| ScanService.ScanService.constructor | apps/backend/src/scan/scan.service.ts:13-19 | an empty table over an empty queue |
| ScanService.ScanService.Create | apps/backend/src/scan/scan.service.ts:33-62 | too-long columns or a failed save change nothing and raise; otherwise a `pending` row with the new id, url and user, the application's `createdAt` and the database's `updatedAt` is saved; then exactly one waiting job (id = scan id, same url and user, priority 0, 3 attempts) is added; a failed enqueue keeps the row (no rollback) and rethrows the prefixed error; every job has a row |
| ScanService.ScanService.UpdateScanStatus | apps/backend/src/scan/scan.service.ts:64-75 | a truthy result under an ORM that refuses unknown properties fails with that refusal first, whatever the status; otherwise an unknown status is refused; otherwise any status replaces any other (no transition check), only status and `updatedAt` change and the result is not stored; an unknown id changes nothing and reads back nothing |
| ScanService.ScanService.FindOne | apps/backend/src/scan/scan.service.ts:28-31 | the row with that id, or nothing exactly when there is none |
| ScanService.ScanService.FindAll | apps/backend/src/scan/scan.service.ts:21-26 | every row exactly once (distinct ids, same count as the table) and nothing else, newest `createdAt` first |
| ActiveScansStore.KeyOf | corrected_WebsiteManager.jsx:9 | a string id is its own key; a numeric id's key is canonical decimal text (no leading zero, no `-0`) that reads back as that number |
| ActiveScansStore.DigitsOfValue | corrected_WebsiteManager.jsx:9 | canonical digit text is exactly the printed form of its value, so each number has one key text |
| ActiveScansStore.DecimalRoundTrip | corrected_WebsiteManager.jsx:9 | a numeric id's key reads back as that number |
| ActiveScansStore.NumericKeysDistinct | corrected_WebsiteManager.jsx:9 | different numeric ids get different keys |
| ActiveScansStore.NumberAndItsTextShareAKey | corrected_WebsiteManager.jsx:9 | for every number n and string s, `keyOf(n)` and `keyOf(s)` name the same entry exactly when s is the canonical decimal text of n; so a stored text key matches the number id it came from |
| ActiveScansStore.ReadStored | corrected_WebsiteManager.jsx:12-15 | the stored object, or `{}` when nothing is stored or the text does not parse |
| ActiveScansStore.SetEntry | corrected_WebsiteManager.jsx:19-23 | after `set`, reading gives the payload at the key, the same other entries, and keys = old keys + the key |
| ActiveScansStore.DeleteEntry | corrected_WebsiteManager.jsx:24-28 | after `delete`, keys = old keys − the key and the other entries are unchanged |
| ActiveScansStore.UnparsableReadsEmpty | corrected_WebsiteManager.jsx:12-15 | unparsable text reads as `{}` and the next `set` or `delete` replaces it |
| ActiveScansStore.DeleteUndoesSet | corrected_WebsiteManager.jsx:19-28 | `set` then `delete` of a key leaves the earlier entries without that key |
| ActiveScansStore.SetOverwrites | corrected_WebsiteManager.jsx:19-23 | a second `set` of a key replaces the first |
| ActiveScansStore.SessionStore.Read | corrected_WebsiteManager.jsx:12-15 | returns `ReadStored` of the session entry |
| ActiveScansStore.SessionStore.Write | corrected_WebsiteManager.jsx:16-18 | the session entry becomes the given object |
| ActiveScansStore.SessionStore.Set | corrected_WebsiteManager.jsx:19-23 | the session entry becomes `SetEntry` of the old one |
| ActiveScansStore.SessionStore.Delete | corrected_WebsiteManager.jsx:24-28 | the session entry becomes `DeleteEntry` of the old one |
| PollController.CeilDiv | corrected_WebsiteManager.jsx:122 | the least q with `q·b ≥ a` |
| PollController.MaxAttemptsIsCeiling | corrected_WebsiteManager.jsx:122 | `ceil(10·60·1000 / 2000) = 300` attempts |
| PollController.Pct | corrected_WebsiteManager.jsx:132 | scanning progress lies in 0..94, equals 94 exactly from attempt 300 on, and is positive from the first tick |
| PollController.PctMonotone | corrected_WebsiteManager.jsx:132 | progress never goes back as the attempt grows |
| PollController.FirstTickBelowResumeBaseline | corrected_WebsiteManager.jsx:79-88 | a resumed scan's first tick (94/300 %) shows less than the 12 % baseline it overwrites at once |
| PollController.HasInfixIffOccurs | corrected_WebsiteManager.jsx:192 | the substring search succeeds iff the pattern occurs at some index |
| PollController.AnyInfixIffSome | corrected_WebsiteManager.jsx:192 | the alternation matches iff one alternative does |
| PollController.Retryable | corrected_WebsiteManager.jsx:192 | a message is retried iff some alternative of the pattern is a substring of its lower-cased text |
| PollController.RetryableIffAlternativeOccurs | corrected_WebsiteManager.jsx:192 | a message is retried iff one of 502, 503, 429, network, fetch, timeout occurs in it, ignoring ASCII case |
| PollController.BackendFailureNotRetryable | corrected_WebsiteManager.jsx:170-192 | `'Scan failed on backend'` does not match the retry pattern |
| PollController.TransientErrorsRetryable | corrected_WebsiteManager.jsx:192 | `HTTP 502/503/429`, `Failed to fetch` and `Request TIMEOUT` are retried |
| PollController.OrDefault | corrected_WebsiteManager.jsx:209 | `e?.message \|\| fallback`: a non-empty message is kept, otherwise the fallback |
| PollController.Caught | corrected_WebsiteManager.jsx:191-217 | a caught error reschedules iff it is retryable and `attempt < 300`, then with attempt + 1 after 3000 ms; otherwise a permanent failure with the message or `'Scan failed'` |
| PollController.Step | corrected_WebsiteManager.jsx:142-217 | a tick reschedules only to attempt + 1 ≤ 300 and never from attempt ≥ 300; it completes iff the status is `done`; a timeout needs a reply on the last attempt; a thrown error is decided by `Caught` (retry, or a permanent failure with the message or `'Scan failed'`) |
| PollController.ErrorStatusFailsPermanently | corrected_WebsiteManager.jsx:169-171 | a backend `error` status is a permanent failure with `'Scan failed on backend'`, on every attempt |
| PollController.RetryConsumesAnAttempt | corrected_WebsiteManager.jsx:193-196 | a retried error moves on to attempt + 1, as a normal poll does |
| PollController.PendingStatusTimesOutAtCeiling | corrected_WebsiteManager.jsx:173-189 | any other status reschedules after 2000 ms while attempt + 1 < 300 and times out after that |
| PollController.TicksBounded | corrected_WebsiteManager.jsx:173-195 | whatever the replies, at most 301 − attempt ticks run, so polling ends |
| PollController.ReplyReschedulesBeforeLast | corrected_WebsiteManager.jsx:173-189 | a reply (not an error) reschedules only below the last attempt |
| PollController.TicksWithoutErrorsBounded | corrected_WebsiteManager.jsx:173-189 | without errors at most 300 − attempt ticks run |
| PollController.LastAttemptRetryRunsOneMore | corrected_WebsiteManager.jsx:193-195 | the bound of 301 ticks is reached: pending replies, then a gateway error on attempt 299, then one more tick |
| PollController.StartOf | corrected_WebsiteManager.jsx:88 | `startedAt \|\| Date.now()` |
| PollController.WebsiteManager.constructor | corrected_WebsiteManager.jsx:43-51 | a mounted component with no scans, progress, error, timers or requests |
| PollController.WebsiteManager.SetTimeout | corrected_WebsiteManager.jsx:156-189 | `setTimeout`: the callback is pending under a fresh handle, and nothing else changes |
| PollController.WebsiteManager.Poll | corrected_WebsiteManager.jsx:119-143 | nothing once unmounted; otherwise the website shows `scanning` at `Pct(attempt+1)` and one status request is in flight |
| PollController.WebsiteManager.SettleMeta | corrected_WebsiteManager.jsx:142-218 | the reply is consumed and `Step` decides. `done`: 100 % `completed` and a 1200 ms follow-up timer. Failure: its message, 0 %, unlocked, store entry deleted. Timeout: the timeout message, 95 %, unlocked, store entry deleted. Reschedule: a timer for attempt + 1 recorded in `timersRef`, and `retrying` with the old progress (12 if none). The screen changes only while mounted; the store deletions and timers happen either way |
| PollController.WebsiteManager.EndPolling | corrected_WebsiteManager.jsx:207-217 | while mounted: error, final progress, unlocked; always: store entry deleted |
| PollController.WebsiteManager.ScheduleTick | corrected_WebsiteManager.jsx:187-205 | a new timer under a fresh handle, remembered per website; on a retry the progress is kept (12 if none) |
| PollController.WebsiteManager.FireTimer | corrected_WebsiteManager.jsx:156-160 | the timer is gone; a tick timer runs `Poll`; a follow-up does nothing when unmounted, else clears the error and reloads the website list |
| PollController.WebsiteManager.SettleReload | corrected_WebsiteManager.jsx:156-165 | after the reload the store entry is deleted; while mounted the website leaves `scanningIds` and the progress map, and a load failure shows its message or `'Failed to load websites'` |
| PollController.WebsiteManager.ForgetWebsite | corrected_WebsiteManager.jsx:160-164 | the store entry goes; while mounted the scanning mark and progress go too |
| PollController.WebsiteManager.HandleScan | corrected_WebsiteManager.jsx:224-237 | while mounted: error cleared, website locked at `starting` 10 %; the start request is in flight |
| PollController.WebsiteManager.SettleStart | corrected_WebsiteManager.jsx:238-258 | success stores `{scanId, startedAt}` and polls at attempt 0; failure shows the message or `'Failed to start scan'`, reverts the lock and deletes the store entry |
| PollController.WebsiteManager.RevertLock | corrected_WebsiteManager.jsx:250-258 | while mounted: error shown, lock and progress removed; always: store entry deleted |
| PollController.WebsiteManager.ResumeActiveScans | corrected_WebsiteManager.jsx:69-90 | an empty store changes nothing. Otherwise, while mounted, `scanningIds` becomes exactly the stored keys. Every entry with a scan id shows `scanning` at the first tick's progress and has one status request at attempt 0 from its saved start (or now) |
| PollController.WebsiteManager.PollEach | corrected_WebsiteManager.jsx:75-89 | the loop adds exactly the resumed progress entries and requests, in any key order |
| PollController.WebsiteManager.ResumeOne | corrected_WebsiteManager.jsx:76-88 | an entry without a scan id is skipped; otherwise its first tick starts |
| PollController.WebsiteManager.Unmount | corrected_WebsiteManager.jsx:45-50 | unmounted; exactly the timers `timersRef` names are cancelled and the map is cleared; the follow-up timers stay |

The `Valid()` invariants of the classes are preserved by every method:

- `ScanQueueService`:
  - each job is keyed by its id, which is its scan id;
  - at most 3 jobs are active;
  - no job is failed or retried.
- `ScanService`: every row is keyed by its id and fits the columns, and every job has a row with the same url and user.
- `WebsiteManager`:
  - no attempt in a pending timer or request exceeds 300;
  - every progress entry lies in 0..100, and in 0..94 while `scanning`;
  - timer handles are fresh.

## Where the code and its design differ

The model follows the code in each case.

- With `totalRules = 0` the score is `0 / 0`, which is NaN, not 0 (`EmptyRunScoresNaN`).
- "Higher is better" holds for one more critical violation or one more pass. But one more violation of low severity can raise the score, because it also adds a rule (`MinorViolationCanRaiseScore`).
- The design refuses a malformed URL before any row is created. The code checks only that `url` is a non-empty string, and saves any such text (`NoUrlFormatCheck`).
- The status enum has no `processing` state, and nothing shown writes worker results back to the row.
- `updateScanStatus` writes `result` and `completedAt`, which are not columns of `scans`; the column is `results`. Which happens depends on the ORM version, which this model does not pin down, so the ORM's unknown-property policy is a parameter: the update drops them (`DropUnknown`) or refuses the update (`RejectUnknown`). Either way the result is never stored.
- The comment on the client's retry branch says the attempt count stays the same. The code passes `nextAttempt`, so a retry uses up an attempt (`RetryConsumesAnAttempt`). A retry on attempt 299 still allows a 301st tick (`LastAttemptRetryRunsOneMore`).
- `resumeActiveScans` restarts the attempt counter at 0, so a resumed scan may poll for up to ten more minutes. Its 12 % baseline is overwritten at once by the first tick's progress, about 0.31 %.
- A stored entry without a `scanId` is not polled, but `resumeActiveScans` still puts its website in `scanningIds`, and nothing ever takes it out again.
- After `done` the store entry is deleted only by the 1200 ms follow-up. If the component unmounts in between, the follow-up does nothing, so the completed scan's entry stays and is resumed on the next mount.
- The queue's `attempts: 3` with exponential backoff is never used for a scan failure: the processor returns a `success: false` result instead of throwing.

## Left out

- Browser and axe-core driving (`scanWebsite`, `initializeBrowser`, `testConnection`, `getServiceStatus`): external I/O. An axe run is an `AxeResults` value and a scanner call is a `ScannerOutcome` parameter.
- Redis and BullMQ internals: connections, event logging, pause/resume/drain, `isHealthy`. The library's dispatch order, priority direction, backoff timing, stalled-job recovery and the `removeOnComplete`/`removeOnFail` retention limits are also left out. They are foreign code; the constants are kept as named constants only.
- `job.updateProgress` failing inside the processor: such a failure is caught like a scanner failure. The model's processor fails only through the scanner outcome.
- ScanService `getQueueStats` (a pass-through to the queue service's `getQueueStats`) and `getServiceHealth` (a database count and a queue health call): both are I/O wrappers.
- ComplianceScorer.RoundPercent: exact rational rounding. The floating-point ratio and `Math.round`'s handling of values within rounding error of .5 are not modelled.
- PollController.Pct: progress is an exact rational; floating-point rounding of `n / 300 * 94` is not modelled.
- ActiveScansStore.KeyOf: integers only. Exponent notation for numbers of magnitude 10^21 and above, and fractional or NaN ids, are not modelled.
- ActiveScansStore.ReadStored: JSON text that parses to a non-object (a number, `null`, an array) is not modelled. Only the store writes this entry, and it always writes an object.
- ScanService.ScanService.FindOne: an id that is not UUID text is not modelled. The `id` column has type uuid, so the database refuses such an id in the `WHERE` clause, and `findOne` throws where the model returns nothing.
- ScanService.ScanService.UpdateScanStatus: an id that is not UUID text is not modelled either. The update and the read-back throw the database's uuid syntax error, where the model returns `Ok(None)`.
- ScanQueue.ScanQueueService.Dispatch: the rate limit of 10 jobs per 60000 ms is modelled as a sliding window. BullMQ's limiter counts jobs under a key that expires 60000 ms after the first job of its window, which makes a fixed window: near a window boundary up to 20 jobs can start within 60000 ms, and the model does not capture that.
- ScanService.ScanService.FindAll: rows with equal `createdAt` may come in any order. The database's tie order is not pinned down.
- Message texts of the progress entries and the elapsed-time text (`Scanning… (Xm Ys)`): display only.
- The website list, `loading` and `adding` flags, `handleAddWebsite`, `handleViewResults`, the `onWebsiteAdded`/`onScanStarted`/`onViewResults` callbacks and rendering: UI plumbing.
- State updates of an unmounted component: React drops them. The model therefore treats `setError` outside `safeSet` the same as inside it.
- Clock reads: the two `Date.now()` calls in one `handleScan` continuation are taken as one instant `now`.
- The initial `loadWebsites` of the mount effect: display only. `ResumeActiveScans` can be called at any point after construction, mounted or not.
- Concurrency: the model runs one step at a time. Interleavings are represented by calling the `Fire…`/`Settle…` methods in any order.
- A fired timer's handle stays in `timersRef` until it is overwritten or cleared, as in the code. Clearing an already fired handle does nothing, so the model keeps `timersRef` as the code does and cancels only timers that are still pending.
- The controller, `App.jsx` and the API client: routing and I/O. An API error reaches the poller only as a message string, which is a parameter.
- The stub `sentryprime-minimal` scan service, the `scan.processor.ts` TODO stub and unused interface declarations: not part of the running pipeline.

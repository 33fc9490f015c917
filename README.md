# Credit-gated AI ad generation: a Dafny model of the server core

The server lets a signed-in user spend credits to have an image model
compose a product photo from two uploaded pictures (the image phase), and to
animate that photo into a short video with a long-running video job that is
polled until it finishes (the video phase). Each user has two balances:
`credits`, the total, and `dailyCredits`, which is refilled to 20 on the first
request of every local calendar day. An image costs 5 of each and a video 10 of
each. Payments reported by the identity provider's webhooks top up `credits`.

The model covers three server files:

- `daily_credits.dfy` (module `DailyCredits`) models `server/middlewares/dailyCredits.ts`.
  It holds the same-day predicate and the daily refill, and proves the refill
  idempotent and date-based. A calendar is included so that consecutive dates
  can be stated.
- `project_controller.dfy` (module `ProjectController`) models
  `server/controllers/projectController.ts`. It covers the image phase
  (`CreateProject`), the video phase (`CreateVideo`) with its polling loop,
  and `DeleteProject`. The credit gate, the debit and the compensation (flag
  cleared, error recorded, refund) are proved on every failure path.
- `clerk.dfy` (module `Clerk`) models `server/controllers/clerk.ts`. It covers
  user create/update/delete events and the rule that turns a paid plan into credits.
- `schema.dfy` (module `Schema`) holds the records and the store. The store is
  a class `Db` with a `map` per table (`users`, `projects`) and an id counter
  that stands in for the database's id generator. The controllers update these
  fields in place, as the source updates its rows.

External services are inputs:

- the blob store is a function `cdn: string -> Upload` from an asset reference
  to a stored URL or a failure;
- the image model's answer is a `ComposeReply`, which either threw or holds an
  optional list of `Part`s;
- the video job is the operation returned when the job starts, followed by a
  `seq<Poll>` of status answers;
- the project-row writes and service calls inside the phases' try blocks
  that can throw, and the removal of the temporary video file, each have an
  `Option<string>` failure entry in `ImageServices` / `VideoServices`; the
  project delete has one as a parameter of `DeleteProject`;
- the clock is an `Instant` parameter: a local calendar date and an opaque timestamp.

Each request runs sequentially and atomically against the store.

In places the code's behaviour is not the obvious one; the model follows the code (the one exception is the plan lookup, see Findings):

- A project that is currently generating is refused with 404 and the message
  "Generation in progress or project not found". This is the same reply as for
  a missing or foreign project, not a separate conflict kind.
- A project that already has a video, or has no image, is refused with 400.
- The video phase checks credits before it loads the project.
- The image phase refunds `IMAGE_COST` on both balances. On the total balance
  the source writes the literal `5` (projectController.ts line 172), which
  equals `COST`, so the result is the same. `RefundRestoresBalances` states
  that a refund of the phase's own cost restores the pre-debit balances.
- Refusals and failures of the two controllers carry the source's exact
  messages. The reply kinds are `Ok`, `BadRequest` (400), `NoCredits` (401),
  `NotFound` (404) and `Failed` (500). The webhook's 400 carries "Invalid
  plan"; its 500 carries the store's own error text, which the model does not
  know, so `ServerError` has no message.
- A failure to remove the temporary video file, after the video is saved,
  still runs the catch block: the project keeps its video but records the
  error, the 10 credits are refunded and the reply is 500.

## Model

| member | source | states |
|---|---|---|
| `DailyCredits.SameDay` | server/middlewares/dailyCredits.ts:15-18 | Two instants fall on the same day exactly when their calendar dates are equal; the time of day plays no part. |
| `DailyCredits.ResetIfNewDay` | server/middlewares/dailyCredits.ts:15-31 | The checked user keeps `credits` and the profile, is either unchanged or has daily balance 20 and stamp `now`, and its stamp always lies on the date of `now`. |
| `DailyCredits.CheckAndResetDailyCredits` | server/middlewares/dailyCredits.ts:5-32 | A missing user gives None and changes nothing. Otherwise the stored user becomes the reset user and is returned; that user is unchanged on the same date, and otherwise has daily balance 20 and stamp `now`. |
| `DailyCredits.ResetTouchesOnlyDailyFields` | server/middlewares/dailyCredits.ts:15-31 | The reset never changes `credits` or the profile. On the same date the user is returned unchanged. On another date only `dailyCredits := 20` and `lastCreditReset := now` change. |
| `DailyCredits.ResetStampsToday` | server/middlewares/dailyCredits.ts:20-28 | After the check, the stored reset stamp falls on the date of `now`. |
| `DailyCredits.ResetIdempotent` | server/middlewares/dailyCredits.ts:15-27 | A second check with the same `now` changes nothing more. |
| `DailyCredits.SameDateNeverResets` | server/middlewares/dailyCredits.ts:15-18 | Instants on the stored date never reset, whatever their timestamps (the comparison is by calendar date, not elapsed time). |
| `DailyCredits.NextDate` | server/middlewares/dailyCredits.ts:15-18 | The following calendar date is a valid date and comes strictly later. |
| `DailyCredits.NextDateIsImmediate` | server/middlewares/dailyCredits.ts:15-18 | No valid date lies strictly between a date and the date after it. |
| `DailyCredits.NextDateResets` | server/middlewares/dailyCredits.ts:15-28 | A request on the date after the last reset always refills the daily balance to 20 and stamps `now`, leaving `credits` alone. |
| `DailyCredits.StampedUserStaysPut` | server/middlewares/dailyCredits.ts:15-31 | A user whose stamp lies on the date of every instant in a sequence is unchanged by any number of checks. |
| `DailyCredits.AtMostOneResetPerDay` | server/middlewares/dailyCredits.ts:15-27 | Any number of checks on one calendar date together act exactly like the first one, so they perform at most one reset. |
| `Clerk.IsPaidCharge` | server/controllers/clerk.ts:57-61 | Specification predicate, no contract of its own: a charge of type recurring or checkout whose status is paid. The `ClerkWebhooks` contract uses it. |
| `Clerk.PlanCredits` | server/controllers/clerk.ts:62-75 | The amount a plan buys is only ever 80 or 240. Which slugs are accepted is stated by `PlanCreditsAcceptsOnlyTablePlans`. |
| `Clerk.PlanGuardPassesAsWritten` | server/controllers/clerk.ts:71 | Specification predicate, no contract of its own: the guard as written, a non-empty slug that is a key of the table or of Object.prototype. `InheritedSlugPassesGuard` exhibits the difference from `PlanCredits`. |
| `Clerk.ClerkWebhooks` | server/controllers/clerk.ts:7-105 | user.created inserts a user with the schema defaults (500 if the id is missing or taken). user.updated replaces only the profile; user.deleted removes exactly that user (both 500 if the user is unknown). A paid recurring/checkout charge adds exactly 80 (pro) or 240 (premium) to the payer's `credits`, touching no other field or user. A paid charge with a missing or unknown plan gets 400 "Invalid plan" with no change (by the corrected lookup, see Findings). Any other charge or event type is acknowledged with no change. Solvency is preserved. |
| `Clerk.InheritedSlugPassesGuard` | server/controllers/clerk.ts:69-73 | The guard as written admits the slug "constructor", which names no plan (see Findings). |
| `Clerk.PlanCreditsAcceptsOnlyTablePlans` | server/controllers/clerk.ts:62-75 | The corrected plan lookup accepts exactly "pro" and "premium", each of which the original guard also accepts, and yields a positive amount. |
| `ProjectController.RefundRestoresBalances` | server/controllers/projectController.ts:168-174 | Refunding the phase's own cost after its debit restores the user exactly. The debit lowers each balance by exactly the cost. |
| `ProjectController.GatedDebitStaysSolvent` | server/controllers/projectController.ts:37-53 | A debit allowed by the credit gate leaves both balances non-negative. |
| `ProjectController.PassesCreditGate` | server/controllers/projectController.ts:37-42 | Specification predicate, no contract of its own: the user exists and, after the daily reset, both balances cover the cost (the same test as at lines 190-195 of the video phase). The phase contracts use it. |
| `ProjectController.Debit` | server/controllers/projectController.ts:44-52 | Only the two balances move; the profile and the reset stamp stay as they were. |
| `ProjectController.Refund` | server/controllers/projectController.ts:166-174 | Only the two balances move, and debiting the refunded user gives back the original user, so the refund is the debit's inverse. |
| `ProjectController.RecordFailure` | server/controllers/projectController.ts:158-174 | Compensation: the project, if created, gets `isGenerating = false` and `error = message`. The cost is added back to both balances. Nothing else changes. |
| `ProjectController.UploadAll` | server/controllers/projectController.ts:56-61 | The uploads succeed exactly when every file's upload succeeds. The URLs are then the files' URLs, in order. A failure carries the message of a failing file. |
| `ProjectController.FirstCarrierFrom` | server/controllers/projectController.ts:131-136 | The index found is that of the first part carrying non-empty inline data, or the end of the list when no part does. |
| `ProjectController.SelectImage` | server/controllers/projectController.ts:127-141 | None exactly when no part carries data. Otherwise the payload of a carrying part with no carrying part before it. |
| `ProjectController.FirstInlinePart` | server/controllers/projectController.ts:129-136 | The `for … break` scan returns exactly the first carrying part's payload. |
| `ProjectController.NewProject` | server/controllers/projectController.ts:63-75 | The inserted row belongs to the caller, keeps the uploaded URLs, is generating and unpublished, and has no image, video or error yet. |
| `ProjectController.ImageRun` | server/controllers/projectController.ts:55-157 | Specification function, no contract of its own: the outcome of the steps after the debit, first failing step first. Characterised by `ImageRunSucceedsIff` and `NoInlineDataFailsImagePhase`. |
| `ProjectController.NoInlineDataFailsImagePhase` | server/controllers/projectController.ts:138-141 | A response with no part carrying data fails with "Failed to generate image - no inlineData returned". |
| `ProjectController.ImageRunSucceedsIff` | server/controllers/projectController.ts:55-157 | The image phase succeeds exactly when all of these succeed: the uploads, the project creation, the model call, the part selection, the result upload and the save. The stored URL is then the upload of the first carrying part. |
| `ProjectController.ImageSteps` | server/controllers/projectController.ts:55-157 | The try block: the row is created exactly when the uploads and the create succeed, and it is fresh with `isGenerating = true`. On success the row gets `generatedImage` and `isGenerating = false`. The reported error is the first failing step's message. |
| `ProjectController.DebitAndGenerateImage` | server/controllers/projectController.ts:44-178 | After the gate: on success the balances are debited by exactly 5 each and the new project has its image and `isGenerating = false`. On failure the balances are restored, and the project, if created, has `isGenerating = false` and the error. The store invariants are kept. |
| `ProjectController.CreateProject` | server/controllers/projectController.ts:22-179 | Fewer than 2 files or no product name gives 400 with no change at all. A missing user or a balance below 5 after the reset gives 401 with only the reset applied. Otherwise the phase behaves as `DebitAndGenerateImage` states from the reset balances. Valid, Idle and Solvent are preserved. |
| `ProjectController.FirstSettledFrom` | server/controllers/projectController.ts:258-261 | The index is that of the first poll that is not pending. |
| `ProjectController.PollCount` | server/controllers/projectController.ts:258-261 | The number of status queries never exceeds the answers available. |
| `ProjectController.FinalOperation` | server/controllers/projectController.ts:258-261 | The loop ends on an operation that is done (or a call that threw). |
| `ProjectController.AwaitOperation` | server/controllers/projectController.ts:257-261 | The `while (!operation.done)` loop makes exactly `PollCount` queries and ends with `FinalOperation`. |
| `ProjectController.PollsKPlusOne` | server/controllers/projectController.ts:243-261 | A job that starts pending and then answers k pending polls before a done one is polled exactly k + 1 times and ends with that answer. |
| `ProjectController.JobFailure` | server/controllers/projectController.ts:263-271 | A settled job yields no failure exactly when it is done without an error and produced at least one video. |
| `ProjectController.VideoRun` | server/controllers/projectController.ts:226-305 | Specification function, no contract of its own: the outcome of the steps after the debit, first failing step first, ending with the removal of the temporary file. Characterised by `VideoRunSucceedsIff`, `JobFailuresAbortVideoPhase` and `StoredVideoDecidesRun`. |
| `ProjectController.StoredVideo` | server/controllers/projectController.ts:226-298 | Specification function, no contract of its own: the video URL the final save writes, when every step up to it succeeds. |
| `ProjectController.StoredVideoDecidesRun` | server/controllers/projectController.ts:291-305 | A run that saves no video aborts. Once the video is saved, the run succeeds with that URL exactly when the temporary file is removed; if the removal throws, the run aborts with its message although the project already holds the video. |
| `ProjectController.JobFailuresAbortVideoPhase` | server/controllers/projectController.ts:263-271 | A job error fails with its message ("Video generation failed" when empty). Done with no videos fails with "Video generation failed - no output". A throwing call fails with its message. |
| `ProjectController.VideoRunSucceedsIff` | server/controllers/projectController.ts:226-305 | The video phase succeeds exactly when these steps succeed: mark, fetch, a job that is done without error and with a video, download, upload, save and removal of the temporary file. The stored URL is the upload's. |
| `ProjectController.VideoRejection` | server/controllers/projectController.ts:198-213 | A refusal is always a 404 or a 400. Which projects are refused is stated by `VideoRejectionIff`. |
| `ProjectController.VideoRejectionIff` | server/controllers/projectController.ts:198-213 | A project is accepted exactly when it exists, belongs to the caller, is not generating, has no video and has an image. |
| `ProjectController.VideoSteps` | server/controllers/projectController.ts:226-305 | The try block after the debit: the project is marked generating; once the save succeeds it holds the video and `isGenerating = false`, even when the later removal of the temporary file fails. The number of polls is `PollCount` once the loop is reached. |
| `ProjectController.DebitAndGenerateVideo` | server/controllers/projectController.ts:215-324 | After the checks: one debit of exactly 10 on each balance, whatever the number of polls. On success the project has its video and `isGenerating = false`. On failure the balances are restored, `isGenerating = false` and the error is recorded; a video saved before the failure stays on the project, refunded. |
| `ProjectController.CreateVideo` | server/controllers/projectController.ts:181-329 | A missing user or a balance below 10 gives 401 "Not enough credits or daily limit reached". A missing, foreign or generating project gives 404. An existing video or a missing image gives 400. None of these debits or touches a project. Otherwise the phase behaves as `DebitAndGenerateVideo` states. Valid, Idle and Solvent are preserved. |
| `ProjectController.DeleteProject` | server/controllers/projectController.ts:343-366 | The caller's own project is removed and nothing else; every other project keeps its row. A failing delete gives 500 with its message and no change. A missing or foreign project gives 404 "Project not found " with no change. |

## Left out

- Express routing, CORS, the auth middleware (server/server.ts) and the error-tracking setup (server/configs/instrument.mjs): plumbing with no logic; the caller's id is a parameter.
- Webhook signature verification: done by a library; events are taken as verified.
- The image and video models, the blob store, the HTTP fetch of the image, the file download and the temporary-file handling: each is represented only by what it hands back (a URL or an upload failure, a list of parts, a sequence of polls, a download failure).
- Prompt text, generation settings, safety settings, the video prompt and `parseInt(targetLength)`: opaque library parameters that decide nothing in the workflow; `targetLength` is not stored in the model's project row.
- The base64 decode and re-encode of the chosen payload is taken as the identity: the data URI uploaded is built from the payload as received.
- `Promise.all` over the source uploads fails with whichever upload rejects first in time. The model reports the first failing file by index, because timing is not modelled.
- Concurrency: each request runs atomically. The 10-second wait between polls is not modelled. The gap between the credit check and the debit (where two concurrent requests could both pass the check) is not modelled. Nor is the gap between the `isGenerating` check and setting it. The double-spend risk is a note here, not a property.
- The polling loop has no bound in the source. `CreateVideo` therefore requires that the job eventually settles: the start answer or some poll is done, or a call throws. A job that never settles is outside the model: in the source the request then never answers, the 10 credits stay debited and the project stays `isGenerating = true`, so no later video request for it can pass the check.
- Failures of the database writes inside the catch blocks, and of the debit itself (which runs outside the try block in the image phase), are not modelled: those writes always succeed here.
- Failures of the reset's own write, of the user lookup and of the project lookup are not modelled. In the video phase these run inside the try block, so in the source such a failure reaches the catch, which writes the error onto the project with the requested id whoever owns it, refunds nothing and answers 500; the model never takes that path. The lookup in `DeleteProject` is likewise taken to succeed.
- `Clerk.ClerkWebhooks` uses the corrected plan lookup `PlanCredits`: for a paid charge whose slug is an Object.prototype name such as "constructor" it answers 400 "Invalid plan", where the source passes its guard, fails in the increment and answers 500 (see Findings).
- User rows hold only the profile and the balances. Email and name extraction from the event payload are taken as already done. The schema defaults for a new user are a parameter, since the store's schema is not part of this model.
- `user.deleted` leaves the user's projects in place; cascading deletes are a schema matter not visible in the source.
- Integer widths of the balances are not modelled (unbounded integers).
- `getAllPublishedProjects` is a plain query; projectController.ts has no publish handler, so `isPublished` is only stored.
- The client (client/src/components/ProjectCard.tsx, client/src/pages/Generator.tsx, Mygenerations.tsx, Community.tsx) is view state and toasts.

## Findings

| source | as written | input that shows it | evidently intended | confidence | as-written member | corrected member |
|---|---|---|---|---|---|---|
| server/controllers/clerk.ts:71 | `!(planSlug in credits)` uses JavaScript's `in`, which also finds keys inherited from Object.prototype | a paid charge with plan slug "constructor" passes the guard. `credits["constructor"]` is a function, so the increment is rejected by the store and the webhook answers 500 | reject every slug that is not one of the table's own keys with 400 "Invalid plan" | not executed; the guard's behaviour follows from the language definition | `Clerk.InheritedSlugPassesGuard` | `Clerk.PlanCreditsAcceptsOnlyTablePlans` (the lookup `Clerk.ClerkWebhooks` uses) |

# Leadlly planner and subscription rules in Dafny

This project models the rule-bearing core of the Leadlly backend, an Express/Mongoose
service that plans students' revision weeks and sells subscriptions. It covers:

- `createPlanner` and the weekly planner build `generateWeeklyPlanner`. The build picks
  the start date, lays out seven positional day records, appends study events to the
  selected topics, and retags the loaded topics after the planner is stored.
- `updateDailyPlanner`. It deduplicates tomorrow's candidate topics by case-insensitive
  name, appends a study event and bumps `plannerFrequency` for each new topic, merges the
  question maps, pushes the result into the stored planner, and retags the loaded topics.
- `createWeeklyQuiz`. It flattens the week's topics and picks up to two unsolved
  questions per topic, trying difficulty categories in a fixed order under a shrinking
  budget.
- `runJobWithRetries`, the scheduler. It filters eligible users, calls the handler once
  per user in order, and restarts the whole batch a bounded number of times.
- The subscription controller:
  - coupon checks and usage-limit redemption;
  - the per-user order upsert;
  - the status changes of `buySubscription` and `verifySubscription`;
  - the refund window of `cancelSubscription`;
  - `getFreeTrialActive`.
- The streak counter `updateStreak` and its nightly reset `resetStreaksDaily`.
- The tier check `authorizeSubscriber`.
- The user model's e-mail pre-save validator and `getToken`.

Objects whose fields the handlers change in place are classes with `modifies` frames:
`User`, `StudyData`, `Planner`, `Coupon` and the order/payment `Store`. Everything else is
a datatype.

Time is integral. Instants are milliseconds. Planner dates are day numbers, where day 0
is Thursday 1 January 1970. `Calendar` defines the ISO week on day numbers.

Every `user.save()` runs the e-mail validator. When the validator fails, the in-memory
changes stay and the handler reports the error, as the source does.

Database reads are input sequences. The following collaborators are parameters:
- the topic selector: its seven answers, or one answer for the daily update;
- the question assembler;
- the `$sample` stage;
- the gateway's order id and the HMAC comparison;
- the prorating and percentage arithmetic.

Lemmas and contracts show several behaviours of the code as written:
- The daily update's `updateOne` goes to the first planner of the student that has a day
  dated tomorrow, which need not be the week's planner. On a Sunday that is the next
  week's planner, and its questions for that day are replaced by the freshly drawn ones
  (`MissingDaySchedulesAll`).
- The weekly build labels its days by position. It lays out seven days even when it
  starts mid-week, so days then run past `endDate` (`LabelsMatchWeekdays`,
  `DaysWithinPlannerWeek`). The weekly quiz only finds planners that start on a Monday
  (`MidWeekPlannerHasNoQuiz`).
- A coupon usage limit of 0 means unlimited (`ZeroLimitIsUnlimited`).
- A flat discount is not clamped at zero (`FlatDiscountIsNotClamped`).
- The cancellation refusal always says "7 days", whatever `REFUND_DAYS` holds.
- The free trial sets only the user-level category, so it unlocks no tier
  (`TrialDoesNotUnlockTiers`).
- "free" ranks above "premium" in the tier hierarchy (`FreeTierPassesEverything`).
- A retry re-runs users who were already served (`RetryServesFirstUserAgain`).

The model follows the code where one might expect otherwise:
- The weekly build does no lookup before it creates a planner, so nothing prevents a
  second planner for the same week.
- An exception thrown by the handler inside the scheduler's loop ends the attempt and
  triggers the whole-batch retry. Per-user isolation exists only because `createPlanner`
  catches its own errors and reports them through `next`, which the scheduler only logs.
  So for `createPlanner` a `JobThrowsAt` fault does not occur.
- Day labels follow position (Monday first), not the day's real weekday.

## Model

| member | source | states |
|---|---|---|
| Calendar.IsoWeekStart | dist/controllers/Planner/Generate/generatePlanner.js:26-28 | the ISO week start of a day is a Monday at most six days before it |
| Calendar.IsoWeekStartUnique | src/controllers/Quiz/WeeklyQuiz/index.ts:29-30 | a Monday m with m <= d < m + 7 is the week start of d |
| Calendar.SameIsoWeek | src/controllers/Quiz/WeeklyQuiz/index.ts:29-30 | every day from a week's Monday to its Sunday has that same week start and end |
| Text.LowerIgnoresCase | src/controllers/Planner/index.ts:93-100 | names that differ only in ASCII letter case lower-case to the same string |
| UserModel.User.GetToken | src/models/userModel.ts:171-181 | the caller gets the random token, only its hash is stored, and the expiry is now + 600000 ms |
| UserModel.ActivationDate | src/controllers/Planner/index.ts:23 | the free-trial activation date if present, else the subscription one; none only when both are missing |
| UserModel.ValidEmailIsPattern | src/models/userModel.ts:140-141 | the split test accepts exactly the strings matching `^[^\s@]+@[^\s@]+\.[^\s@]+$` |
| UserModel.PreSave | src/models/userModel.ts:139-145 | a save is aborted with "Please enter a valid email address" exactly when the e-mail fails the pattern |
| UserModel.AcceptedEmailShape | src/models/userModel.ts:140 | an accepted address has no white space, exactly one '@' with a non-empty part before it, and a '.' after it that is neither the domain's first nor its last character |
| PlannerModel.Loaded | dist/controllers/Planner/Generate/generatePlanner.js:30-35 | the loaded topics are exactly the records tagged continuous_revision created on or after the given day |
| PlannerModel.AppendStudyEvent | dist/controllers/Planner/Generate/generatePlanner.js:41-46 | each listed topic gains one (date, 0) event per occurrence at the end of its history |
| PlannerModel.MarkActive | dist/controllers/Planner/Generate/generatePlanner.js:63 | every given topic ends tagged active_continuous_revision |
| PlannerModel.Planner.constructor | dist/controllers/Planner/Generate/generatePlanner.js:56-62 | the new planner holds the given student, dates and days |
| GeneratePlanner.PlannerStart | dist/controllers/Planner/Generate/generatePlanner.js:24-28 | the start is the activation day when that is on or after the current ISO week's Monday, otherwise that Monday; never before the Monday |
| GeneratePlanner.Layout | dist/controllers/Planner/Generate/generatePlanner.js:37-55 | exactly seven days; entry i is labelled daysOfWeek[i], dated start + i, and holds the selector's i-th answer |
| GeneratePlanner.LayoutConsecutive | dist/controllers/Planner/Generate/generatePlanner.js:38 | the first day is the start date and each later date is one more than the previous |
| GeneratePlanner.LabelsMatchWeekdays | dist/controllers/Planner/Generate/generatePlanner.js:12-20 | every label names its date's real weekday if and only if the planner starts on a Monday |
| GeneratePlanner.DaysWithinPlannerWeek | dist/controllers/Planner/Generate/generatePlanner.js:29 | endDate is the start week's Sunday; all seven days fall on or before it if and only if the start is a Monday |
| GeneratePlanner.EventsPerSelectedDay | dist/controllers/Planner/Generate/generatePlanner.js:41-46 | a topic selected on k days, at most once a day, gains exactly k events, each of efficiency 0 and dated within the build |
| GeneratePlanner.RecordDay | dist/controllers/Planner/Generate/generatePlanner.js:41-46 | one day's topics gain one (date, 0) event per occurrence; every other topic of the week is unchanged |
| GeneratePlanner.RecordBuildDay | dist/controllers/Planner/Generate/generatePlanner.js:38-46 | after day i every topic's history is its original one followed by the events of days 0..i |
| GeneratePlanner.BuildDays | dist/controllers/Planner/Generate/generatePlanner.js:37-55 | the built days are the seven-day layout and each topic's history gains the events of all seven days |
| GeneratePlanner.GenerateWeeklyPlanner | dist/controllers/Planner/Generate/generatePlanner.js:22-67 | a fresh planner for the student from the chosen start to its week's Sunday with the seven-day layout; study events are appended whether or not the create fails; loaded topics are retagged only when it succeeds |
| PlannerController.CreatePlanner | src/controllers/Planner/index.ts:15-46 | without an activation date: "Not subscribed" (400) and nothing changes; otherwise the build runs, and the planner flag is raised and the user saved only once the build returns |
| PlannerController.FindWeekPlanner | src/controllers/Planner/index.ts:66-79 | the first planner of the student lying within the current ISO week, or none when no planner does |
| PlannerController.ExistingDay | src/controllers/Planner/index.ts:89-91 | the first day dated the given date, or none when no day is |
| PlannerController.ExistingNames | src/controllers/Planner/index.ts:93-96 | exactly the lower-cased names of that day's continuous topics; empty when the day is missing |
| PlannerController.NewTopics | src/controllers/Planner/index.ts:98-100 | keeps exactly the candidates whose lower-cased name is not already planned |
| PlannerController.MergeQuestions | src/controllers/Planner/index.ts:131-132 | the merged map has every key of both maps; a new key's value wins and every other key keeps its old value |
| PlannerController.UpdatedDays | src/controllers/Planner/index.ts:134-144 | only the first day with the date changes: its topics become the old list followed by the new topics and its questions are replaced; with no such day nothing changes |
| PlannerController.PushTarget | src/controllers/Planner/index.ts:134-135 | the first stored planner of the student with a day dated tomorrow, or none |
| PlannerController.Bumped | src/controllers/Planner/index.ts:115-118 | n bumps raise the frequency by n, a missing value counting as 0; zero bumps leave it alone |
| PlannerController.ScheduleTopic | src/controllers/Planner/index.ts:110-118 | one (date, 0) event is appended and the frequency rises by one |
| PlannerController.ScheduleTopics | src/controllers/Planner/index.ts:109-119 | each topic gains one (date, 0) event and one frequency bump per occurrence in the list |
| PlannerController.ScheduleAndDraw | src/controllers/Planner/index.ts:109-132 | only new topics gain events and bumps, once per occurrence; the result is the week day's questions overridden by those drawn for the new and back topics |
| PlannerController.PushDay | src/controllers/Planner/index.ts:134-144 | only the target planner's days change, by the push-and-set on the dated day |
| PlannerController.RetagLoaded | src/controllers/Planner/index.ts:146-149 | exactly the loaded topics become active_continuous_revision; other records keep their tag |
| PlannerController.UpdateDailyPlanner | src/controllers/Planner/index.ts:48-161 | no week planner: error and no change; nothing new: "already added" and no change; otherwise new topics gain events and bumps, only the push target's day changes, and every loaded topic is retagged |
| PlannerController.NewTopicsCount | src/controllers/Planner/index.ts:98-100 | a candidate is kept as often as it was selected unless its name is planned, then never; candidates are not deduplicated against each other |
| PlannerController.DuplicateUpToCaseDropped | src/controllers/Planner/index.ts:93-100 | a candidate whose name equals a planned name up to case is dropped |
| PlannerController.MissingDaySchedulesAll | src/controllers/Planner/index.ts:89-96 | with no entry for the day every candidate is new, the week's planner is not changed, and only freshly drawn questions are pushed |
| PlannerController.SecondUpdateFindsNothing | src/controllers/Planner/index.ts:102-107 | repeating an update with the same selection finds nothing new |
| PlannerController.NewTopicsDistinct | src/controllers/Planner/index.ts:98-100 | filtering keeps distinct names distinct |
| PlannerController.UpdateKeepsNamesDistinct | src/controllers/Planner/index.ts:134-141 | a day whose topic names are distinct keeps them distinct after an update with distinct candidates |
| WeeklyQuiz.FindCurrentPlanner | src/controllers/Quiz/WeeklyQuiz/index.ts:29-40 | the first planner of the student spanning exactly the current ISO week, or none when no planner does |
| WeeklyQuiz.ContinuousOf | src/controllers/Quiz/WeeklyQuiz/index.ts:47-50 | holds exactly the continuous topics of the week's days |
| WeeklyQuiz.BackOf | src/controllers/Quiz/WeeklyQuiz/index.ts:42-45 | holds exactly the back topics of the week's days |
| WeeklyQuiz.UnsolvedMembers | src/controllers/Quiz/WeeklyQuiz/index.ts:82-91 | the kept questions come from the draw and none is among the solved ones |
| WeeklyQuiz.CreateWeeklyQuiz | src/controllers/Quiz/WeeklyQuiz/index.ts:11-105 | no activation date: "Not subscribed" (400); no planner for exactly this week: no quiz; otherwise a weekly quiz for this week built from the continuous then back topics |
| WeeklyQuiz.DrawForTopics | src/controllers/Quiz/WeeklyQuiz/index.ts:67-97 | the loop over the week's topics yields the specified results map |
| WeeklyQuiz.DrawForTopic | src/controllers/Quiz/WeeklyQuiz/index.ts:68-96 | one topic's entry starts empty and is filled by trying categories in order while the budget is positive |
| WeeklyQuiz.TakeUnsolved | src/controllers/Quiz/WeeklyQuiz/index.ts:82-92 | the entry gains the draw's unsolved questions in order, and the budget drops by the draw's size for each |
| WeeklyQuiz.PickWithinBudget | src/controllers/Quiz/WeeklyQuiz/index.ts:70-91 | a topic never gets more questions than its budget, so at most two |
| WeeklyQuiz.PickMatches | src/controllers/Quiz/WeeklyQuiz/index.ts:74-91 | every picked question is filed under the topic, belongs to a category tried, and is unsolved |
| WeeklyQuiz.PickInCategoryOrder | src/controllers/Quiz/WeeklyQuiz/index.ts:59-95 | picked questions come in the fixed category order jeemains_easy, neet, boards, jeemains, jeeadvance |
| WeeklyQuiz.PickGood | src/controllers/Quiz/WeeklyQuiz/index.ts:68-92 | one topic's picks are at most two unsolved questions filed under its name |
| WeeklyQuiz.CollectEntries | src/controllers/Quiz/WeeklyQuiz/index.ts:67-97 | the quiz has an entry exactly for each weekly topic name, each with at most two unsolved questions of that name |
| WeeklyQuiz.CollectKeepsOrRefills | src/controllers/Quiz/WeeklyQuiz/index.ts:68-69 | a good entry stays present and good; when no later topic carries its name it is kept unchanged |
| WeeklyQuiz.CollectKeepsUnnamed | src/controllers/Quiz/WeeklyQuiz/index.ts:67-69 | a name no topic carries keeps its entry, or its absence |
| WeeklyQuiz.CollectLastOccurrenceDecides | src/controllers/Quiz/WeeklyQuiz/index.ts:67-69 | a repeated name's entry is exactly what its last occurrence draws, with the draw number left by the topics before it; earlier draws are thrown away |
| WeeklyQuiz.MidWeekPlannerHasNoQuiz | src/controllers/Quiz/WeeklyQuiz/index.ts:32-36 | a planner not starting on a Monday never matches the quiz's exact-week lookup |
| Scheduler.EligibleUsersFilter | src/controllers/Planner/scheduler.ts:31-36 | a user is processed if and only if the subscription is active with an activation date, or the free trial is active |
| Scheduler.InvocationsServe | src/controllers/Planner/scheduler.ts:38-42 | every call serves a listed user with the caller's nextWeek flag |
| Scheduler.RunAttempt | src/controllers/Planner/scheduler.ts:30-42 | one attempt calls the handler once per eligible user in query order, stopping at the call that throws |
| Scheduler.RunJobWithRetries | src/controllers/Planner/scheduler.ts:29-58 | the run is the specified sequence of attempts: a throwing attempt with retries left restarts the whole batch with one retry fewer |
| Scheduler.AttemptsBounded | src/controllers/Planner/scheduler.ts:44-57 | a run makes at least one and at most retries + 1 attempts |
| Scheduler.AtMostFourAttempts | src/controllers/Planner/scheduler.ts:7 | with the cron triggers' three retries, at most four attempts |
| Scheduler.CompletesIffSomeAttemptClean | src/controllers/Planner/scheduler.ts:44-57 | a run goes through if and only if some attempt within the budget does not throw; it stops at the first such attempt; otherwise it uses up the budget and the failure is swallowed |
| Scheduler.CompletedRunServesEveryone | src/controllers/Planner/scheduler.ts:38-50 | a completed run ends with one call per eligible user, in query order |
| Scheduler.RetryServesFirstUserAgain | src/controllers/Planner/scheduler.ts:45-50 | after a failure inside the loop, a successful retry serves the first user a second time |
| Scheduler.CallsServeEligibleUsers | src/controllers/Planner/scheduler.ts:31-42 | every handler call of a run serves an eligible user with the caller's flag |
| Subscriptions.FindPricing | src/controllers/Subscription/index.ts:24-29 | the plan found has the requested id, and none means no plan has it |
| Subscriptions.FindCoupon | src/controllers/Subscription/index.ts:58-61 | the coupon found has the requested code, and none means no coupon has it |
| Subscriptions.LimitReached | src/controllers/Subscription/index.ts:67-69 | the usage-limit refusal fires exactly for a negative limit |
| Subscriptions.Redeemed | src/controllers/Subscription/index.ts:78-81 | a set non-zero limit drops by exactly one; 0 and a missing limit are unchanged |
| Subscriptions.Discounted | src/controllers/Subscription/index.ts:71-75 | a flat coupon subtracts discountValue * 100 paise |
| Subscriptions.RedeemCoupon | src/controllers/Subscription/index.ts:78-81 | the coupon's limit becomes its redeemed value |
| Subscriptions.FindOrder | src/controllers/Subscription/index.ts:92 | the order found belongs to the user, and none means the user has no order |
| Subscriptions.FindPayment | src/controllers/Subscription/index.ts:260-263 | the payment found has the subscription id, and none means no payment has it |
| Subscriptions.Store.UpsertOrder | src/controllers/Subscription/index.ts:92-109 | the user's existing order is overwritten, otherwise the order is added |
| Subscriptions.Store.RecordPayment | src/controllers/Subscription/index.ts:167-174 | the payment is appended |
| Subscriptions.StatusAfterPurchase | src/controllers/Subscription/index.ts:112-117 | an active status stays active and any other becomes "pending" |
| Subscriptions.BuySubscription | src/controllers/Subscription/index.ts:13-128 | succeeds exactly when the user, plan and current-plan checks pass, any coupon exists, is unexpired and under its limit, and the save passes; each refusal returns its message and changes neither order, user nor coupon; on success the amount is the base price after the coupon, the coupon is redeemed, the order upserted and the status moved on |
| Subscriptions.Verified | src/controllers/Subscription/index.ts:182-220 | a verified subscription is active and takes the order's id, plan and coupon |
| Subscriptions.VerifySubscription | src/controllers/Subscription/index.ts:130-244 | lookup failures, a missing secret or a signature mismatch record nothing and change nothing; otherwise the payment is recorded and, if the plan exists, the subscription is started or extended |
| Subscriptions.CancelSubscription | src/controllers/Subscription/index.ts:246-321 | no user, or a missing or empty subscription id, is refused with its message; acceptance needs a payment and a configured refund window |
| Subscriptions.TrialFrom | src/controllers/Subscription/index.ts:335-341 | the trial is active, availed, and runs from now for 14 days |
| Subscriptions.GetFreeTrialActive | src/controllers/Subscription/index.ts:323-363 | the trial is granted whatever its history, the category becomes "free", the subscription is untouched, and the result reports the save |
| Subscriptions.ZeroLimitIsUnlimited | src/controllers/Subscription/index.ts:67-81 | a limit of 0 or none is never refused and never decremented |
| Subscriptions.NonNegativeLimitNeverReached | src/controllers/Subscription/index.ts:67-81 | a coupon whose limit starts at n >= 0 counts down to 0 and is then never refused for its limit |
| Subscriptions.FlatDiscountIsNotClamped | src/controllers/Subscription/index.ts:73-75 | a flat discount larger than the price gives a negative amount |
| Subscriptions.UpsertFindsNewOrder | src/controllers/Subscription/index.ts:92-109 | after the upsert the user's order is the new one and other users' orders are unchanged |
| Subscriptions.UpsertKeepsOneOrderPerUser | src/controllers/Subscription/index.ts:92-109 | at most one order per user is preserved, and an order is added only for a user without one |
| Subscriptions.VerifiedStartsOrExtends | src/controllers/Subscription/index.ts:185-220 | an active subscription keeps its activation, records the previous plan in upgradation, grows its duration by the plan's months, and moves a set deactivation date by those months (a missing one stays missing); any other starts now with the plan's duration |
| Subscriptions.TwoPaymentsAddUp | src/controllers/Subscription/index.ts:185-220 | two verified payments for the same plan give twice its duration, and the second records the first as previous |
| Subscriptions.CancelWithinWindow | src/controllers/Subscription/index.ts:266-279 | with a configured window, a cancellation is accepted if and only if the payment is at most that many days old; a non-numeric window accepts; none refuses |
| Subscriptions.CancelNeedsPayment | src/controllers/Subscription/index.ts:260-263 | without a payment for the subscription id, the cancellation is refused with "Payment not found" |
| Subscriptions.TrialLastsFourteenDays | src/controllers/Subscription/index.ts:340-341 | the trial ends exactly 14 days after it starts |
| Subscriptions.TrialDoesNotUnlockTiers | src/controllers/Subscription/index.ts:343 | a trial user without a subscription category is refused every listed tier |
| Streaks.Bumped | src/helpers/updateStreak.ts:11-24 | a streak never updated becomes 1, any other grows by exactly 1; the update time becomes now |
| Streaks.Reset | src/helpers/updateStreak.ts:39-48 | a streak updated more than one calendar day ago becomes 0 at now; any other is unchanged |
| Streaks.UpdateStreak | src/helpers/updateStreak.ts:6-30 | the streak is bumped and the call fails with "Failed to update user streak." exactly when the save fails |
| Streaks.ResetStreaksDaily | src/helpers/updateStreak.ts:33-56 | users up to the first failing save are reset by the rule, the rest are untouched, and the job stops only at a failing save |
| Streaks.ResetIdempotent | src/helpers/updateStreak.ts:44-47 | a second reset on the same calendar day changes nothing |
| Streaks.ResetKeepsRecentStreaks | src/helpers/updateStreak.ts:39-48 | a gap of 0 or 1 day keeps the streak, 2 or more zeroes it, and a streak never updated is skipped |
| Streaks.BumpsAccumulate | src/helpers/updateStreak.ts:21-24 | k updates add exactly k, even on the same day |
| Streaks.UpdateAfterResetStartsAtOne | src/helpers/updateStreak.ts:21-24 | an update after a reset gives a streak of 1 |
| Streaks.NoResetWithinADay | src/helpers/updateStreak.ts:40-44 | a streak updated today or yesterday survives the nightly run |
| CheckCategory.IndexOf | src/middlewares/checkCategory.ts:26-27 | the first position of the category, or -1 when it is absent or missing |
| CheckCategory.Authorize | src/middlewares/checkCategory.ts:18-35 | 403 exactly when neither subscription nor trial is active; otherwise passes if and only if the user's tier index is at least the required one |
| CheckCategory.TierPositions | src/middlewares/checkCategory.ts:16 | basic, pro, premium and free rank 0 to 3 |
| CheckCategory.PassingIsMonotone | src/middlewares/checkCategory.ts:26-31 | passing for a tier implies passing for every lower tier |
| CheckCategory.FreeTierPassesEverything | src/middlewares/checkCategory.ts:16-31 | an active user with category "free" passes every tier check |
| CheckCategory.UnlistedCategoryRefused | src/middlewares/checkCategory.ts:26-31 | an active user whose category is missing or unlisted is refused every listed tier |
| CheckCategory.UnlistedRequirementOnlyChecksActivity | src/middlewares/checkCategory.ts:22-31 | an unlisted requirement passes exactly the active users |
| CheckCategory.BasicAdmitsListedCategories | src/middlewares/checkCategory.ts:16-31 | a "basic" requirement admits exactly the active users with a listed category |

## Left out

- Time zones and daylight saving: the Asia/Kolkata conversions, the server-local `startOf("isoWeek")`, `setHours(0, 0, 0, 0)` and `setDate` all become day arithmetic on UTC day numbers.
- The daily update matches planner days by day number; the source compares exact instants, which agree only when both were computed in the same zone.
- Floating point: the prorated upgrade price and the percentage discount are parameters (`prorate`, `percentage`), and the streak's fractional day gap is the difference of day numbers.
- `Date.prototype.setMonth` is the parameter `addMonths`; its month-overflow behaviour is not modelled.
- Persistence: `find`, `findOne`, `updateOne`, `create` and `save` act on in-memory sequences and objects. Mongoose strict mode, which drops fields the schema does not declare (`streak.updatedAt`; the subscription's `planId`, `duration`, `dateOfDeactivation`, `coupon`, `category`, `upgradation`; the pricing `category`), is not modelled; the fields are kept as the handlers write them.
- A stored `null` under `$exists: true` counts as present in MongoDB; the model treats a missing activation date as absent.
- `resetTokenExpiry` is declared as a string in the schema; the model keeps the number.
- Concurrency: `Promise.all` over the seven days and over the retag saves, and the un-awaited `map` in the quiz loop, run one after the other. Under the source's real interleaving the quiz budget may be read before it is lowered.
- Subscriptions.Verified: adding months to a missing `duration` gives NaN in the source; the model keeps it missing.
- Subscriptions.BasePrice: the prorated price is a parameter; its rounding and the 30-day month are not modelled.
- Subscriptions.Discounted: the percentage case is a parameter, so only the flat case is stated.
- The topic selector, the question assembler and the back-topic loader are not part of this model. The selector's answers and the assembler are inputs; no capacity limit is assumed for them.
- The payment gateway's order creation, the HMAC signature, random tokens, SHA-256 and `comparePassword` are inputs or left out; the signature check is a boolean.
- Mail delivery, queue jobs, redirects and response bodies are left out.
- PlannerController.CreatePlanner: the response's `message` and `planner` fields are not modelled; the result is the planner.
- A `Planner.create` failure is the input `createError`. `Quiz.create` and the retag saves are taken to succeed.
- Catch-all 500 answers for thrown store errors are modelled only for failed user saves.
- The scheduler's three-minute `setTimeout`, the two cron triggers and their overlap are left out; attempts follow one another, and which attempt throws where is the input `faults`.
- Scheduler.RunJobWithRetries: errors a handler passes to `next` are only logged and are not modelled.
- Text.LowerIgnoresCase: lower-casing covers ASCII letters only; Unicode case mapping is not modelled.

# Glowface subscription app — verified model of its sequential logic

Glowface is a Next.js subscription app for facial-exercise content. This
project models, in Dafny, the five places where the app does something
step by step whose behaviour can be stated precisely:

- **`webhook.dfy` — module `Webhook`.** The Stripe webhook endpoint reconciles the
  `user_subscriptions` table. A signature gate comes first. A dispatch on the event type
  follows, and each branch inserts a row, updates the `status` (and `canceled_at`) of the
  rows whose `stripe_subscription_id` matches, or does nothing. The table is a class
  `SubscriptionTable` holding a sequence of rows. Its `HandleEvent` method is proved
  against the function `Apply`. The lemmas cover:
  - the table is unchanged on a bad signature;
  - updates touch only matching rows;
  - status updates are idempotent; a redelivered deletion keeps `canceled` but
    restamps `canceled_at` with the later time;
  - the plain insert is *not* idempotent;
  - the table only grows, by one row per inserting delivery.
- **`checkout.dfy` — module `Checkout`.** The checkout-session endpoint. It checks the
  request's fields in order, then builds the Stripe session parameters: the price lookup,
  `{userId, planType}` metadata at two levels, and the redirect URLs. It answers with the
  session or an error. `stripe.checkout.sessions.create` is a function parameter that
  either creates a session (id, url) or fails with a message.
- **`quiz.dfy` — module `Quiz`.** The landing-page quiz: a class `QuizPage` with the
  page's state and its four handlers, the eight questions, and the score message. The
  class invariant says the score never exceeds the number of answered questions.
- **`dashboard.dfy` — module `Dashboard`.** The exercise dashboard:
  - the difficulty filter, the difficulty labels and `m:ss` time formatting;
  - a class `DashboardPage` whose methods start, close and step through an exercise and
    tick its countdown, with the step cursor kept inside the instruction list.
- **`profile.dfy` — module `Profile`.** The profile form: field edits that change one
  field only, the ordered name and age validation (with JavaScript's `trim`), and the
  upsert payload that maps empty strings to null.
- **`wrappers.dfy` — module `Wrappers`.** `Option` and `Result`.

Inputs the app gets from outside are parameters of the model:
- whether Stripe accepted the webhook signature (`verified`);
- the current time as an ISO string (`now`);
- the `Origin` header;
- the configured price ids (`Prices`);
- Stripe's answer to a session request;
- the error, if any, the profile upsert returns.

Two details of the webhook code:
- The subscription-updated handler writes only when `metadata.userId` is present
  (`src/app/api/webhooks/stripe/route.ts:57`).
- The deletion writes `canceled` (`src/app/api/webhooks/stripe/route.ts:76`), while the
  `Subscription` type in `src/lib/supabase.ts:51` spells it `cancelled`. The model writes
  the webhook's literal, and the status written by the update handler is an open string.

## Model

| member | source | states |
|---|---|---|
| `Webhook.UpdatedWhere` | src/app/api/webhooks/stripe/route.ts:59-79 | `.update(patch).eq('stripe_subscription_id', key)` patches exactly the matching rows, keeps every other row, and never adds or removes a row |
| `Webhook.NewRow` | src/app/api/webhooks/stripe/route.ts:41-48 | the inserted row has status `active`, `started_at` = now, no `canceled_at`, user and plan from the session's metadata, and the session's customer and subscription ids |
| `Webhook.Patched` | src/app/api/webhooks/stripe/route.ts:59-79 | a patched row takes the patch's status, takes the patch's `canceled_at` when it has one and keeps its own otherwise, and keeps every other column |
| `Webhook.Apply` | src/app/api/webhooks/stripe/route.ts:33-101 | an event grows the table by one row, appended after the unchanged old rows, exactly when it is a completed checkout with both metadata fields; every other event keeps the row count; no event changes an existing row's user, plan or subscription id |
| `Webhook.Deliver` | src/app/api/webhooks/stripe/route.ts:11-101 | a delivery whose signature fails leaves the table as it was; a delivery adds one row exactly when it is verified and inserts, and none otherwise |
| `Webhook.DeliverAll` | src/app/api/webhooks/stripe/route.ts:11-101 | a sequence of deliveries never shrinks the table |
| `Webhook.SubscriptionTable.Insert` | src/app/api/webhooks/stripe/route.ts:41-48 | insert appends the row at the end of the table, with no uniqueness check |
| `Webhook.SubscriptionTable.UpdateWhere` | src/app/api/webhooks/stripe/route.ts:59-79 | the in-place, row-by-row update leaves the table equal to `UpdatedWhere` of the old table |
| `Webhook.SubscriptionTable.HandleEvent` | src/app/api/webhooks/stripe/route.ts:11-111 | a failed signature check answers 400 "Webhook signature verification failed" and leaves the table unchanged; otherwise the table becomes `Apply(old, event, now)` and the answer is 200 `{received: true}` |
| `Webhook.UpdatedWhereIdempotent` | src/app/api/webhooks/stripe/route.ts:59-79 | applying the same update twice gives the same table as applying it once |
| `Webhook.UpdatedWhereNoMatch` | src/app/api/webhooks/stripe/route.ts:73-79 | an update whose key matches no row leaves the table unchanged |
| `Webhook.CheckoutCompletedAppendsRow` | src/app/api/webhooks/stripe/route.ts:34-49 | a completed checkout with both `userId` and `planType` metadata appends exactly one row: status `active`, user and plan from the metadata, customer and subscription ids from the session, `started_at` = now, no `canceled_at`; earlier rows are kept |
| `Webhook.CheckoutCompletedWithoutMetadataIsNoop` | src/app/api/webhooks/stripe/route.ts:36-50 | a completed checkout missing either metadata field leaves the table unchanged |
| `Webhook.CheckoutCompletedRedeliveryDuplicates` | src/app/api/webhooks/stripe/route.ts:41-48 | the insert is not idempotent: delivering the same completed checkout twice adds two identical rows |
| `Webhook.SubscriptionUpdatedSetsStatus` | src/app/api/webhooks/stripe/route.ts:53-66 | with `metadata.userId`, every row with the subscription's id gets the reported status, with its other fields unchanged; other rows are unchanged; the row count is unchanged |
| `Webhook.SubscriptionUpdatedWithoutUserIsNoop` | src/app/api/webhooks/stripe/route.ts:55-66 | without `metadata.userId` the table is unchanged |
| `Webhook.SubscriptionUpdatedIdempotent` | src/app/api/webhooks/stripe/route.ts:53-66 | a subscription update delivered twice leaves the same table as delivered once |
| `Webhook.SubscriptionDeletedCancels` | src/app/api/webhooks/stripe/route.ts:69-80 | a deletion sets status `canceled` and `canceled_at` = now on the matching rows only, keeps their other fields, and never creates a row |
| `Webhook.SubscriptionDeletedRedelivery` | src/app/api/webhooks/stripe/route.ts:69-80 | a deletion delivered again later leaves the table a single delivery at the later time would give: the rows stay `canceled` and `canceled_at` takes the later time |
| `Webhook.SubscriptionDeletedWithoutMatchIsNoop` | src/app/api/webhooks/stripe/route.ts:69-80 | a deletion for an id no row carries leaves the table unchanged |
| `Webhook.OtherEventsAreNoops` | src/app/api/webhooks/stripe/route.ts:83-103 | `invoice.payment_succeeded`, `invoice.payment_failed` and any unrecognised type leave the table unchanged |
| `Webhook.DeliveriesOnlyAppend` | src/app/api/webhooks/stripe/route.ts:33-101 | over any sequence of deliveries no row is removed or reordered (each keeps its user, plan and subscription id), and the table grows by exactly one row per verified, completed checkout with full metadata |
| `Checkout.Validate` | src/app/api/create-checkout-session/route.ts:9-22 | a request passes iff `planType`, `userId` and `userEmail` are all truthy and the plan is monthly or annual; the completeness check comes first, so an incomplete request is "Dados incompletos" whatever its plan; a complete request with another plan is "Plano inválido" |
| `Checkout.Post` | src/app/api/create-checkout-session/route.ts:5-59 | Stripe is asked for at most one session, and for one exactly when the body parsed and passed validation; the answer is 200 exactly when Stripe created it, and then carries Stripe's session id and URL; every answer is 200, 400 or 500 |
| `Checkout.PriceFor` | src/app/api/create-checkout-session/route.ts:24 | `STRIPE_PRICES[planType]`: the monthly price for "monthly", the annual price for "annual" |
| `Checkout.SuccessUrl` | src/app/api/create-checkout-session/route.ts:41 | the success URL starts with the origin text ("null" when the header is missing) and continues with `/progress?session_id={CHECKOUT_SESSION_ID}` |
| `Checkout.CancelUrl` | src/app/api/create-checkout-session/route.ts:42 | the cancel URL starts with the origin text and is as long as the origin, `/checkout?plan=`, the plan and `&canceled=true` together |
| `Checkout.SessionFor` | src/app/api/create-checkout-session/route.ts:27-49 | the session is in subscription mode, card only, with the single line item `{price: STRIPE_PRICES[planType], quantity: 1}`, the user's email, `{userId, planType}` as both metadata and subscription metadata, and the success and cancel URLs built from the origin and plan |
| `Checkout.Failure500` | src/app/api/create-checkout-session/route.ts:52-57 | the catch answers 500 with `error.message || 'Erro ao processar pagamento'`: the thrown message when it is non-empty, the default text otherwise |
| `Checkout.IncompleteRequestRejected` | src/app/api/create-checkout-session/route.ts:9-14 | a request missing any of the three fields gets 400 "Dados incompletos" and no session is requested |
| `Checkout.UnknownPlanRejected` | src/app/api/create-checkout-session/route.ts:17-22 | a complete request with a plan other than monthly or annual gets 400 "Plano inválido" and no session is requested |
| `Checkout.ValidRequestSession` | src/app/api/create-checkout-session/route.ts:24-49 | a valid request sends one session: subscription mode, card, one line item with the plan's price and quantity 1, the user's email, `{userId, planType}` as both `metadata` and `subscription_data.metadata`, and the success and cancel URLs built from the origin |
| `Checkout.ValidRequestResponse` | src/app/api/create-checkout-session/route.ts:51-57 | a created session answers 200 `{sessionId, url}`; a failed creation answers 500 with Stripe's message, or "Erro ao processar pagamento" when it is empty |
| `Checkout.MalformedBodyFails` | src/app/api/create-checkout-session/route.ts:6-58 | a body that does not parse gives no session request and the catch's answer: 500 with the thrown message, or "Erro ao processar pagamento" when it is empty |
| `Checkout.CancelUrlEchoesPlan` | src/app/api/create-checkout-session/route.ts:42 | the plan type can be read back unchanged from the cancel URL |
| `Checkout.AnnualScenario` | src/app/api/create-checkout-session/route.ts:24-48 | plan "annual" for user "u1" is priced with the configured annual price and tagged `{userId: "u1", planType: "annual"}` at both levels |
| `Quiz.QuestionsWellFormed` | src/app/page.tsx:15-112 | there are eight questions and each one's correct answer indexes one of its options |
| `Quiz.CountAnsweredMark` | src/app/page.tsx:136-138 | marking a question answered raises the answered count by one if it was unanswered and leaves it unchanged otherwise |
| `Quiz.CountAnswered` | src/app/page.tsx:120-138 | the number of answered questions is at most the number of flags |
| `Quiz.CountAnsweredNone` | src/app/page.tsx:120 | a fresh flag array counts zero answered questions |
| `Quiz.ScoreMessage` | src/app/page.tsx:162-168 | the perfect message iff score = 8; otherwise excellent iff 4·score ≥ 24; otherwise good iff 2·score ≥ 8; else the encouragement message |
| `Quiz.ScoreAtMostQuestions` | src/app/page.tsx:130-138 | a score bounded by the answered count is at most 8 |
| `Quiz.QuizPage.constructor` | src/app/page.tsx:115-120 | the quiz starts at question 0 with no selection, no explanation, score 0, not completed, all flags false |
| `Quiz.QuizPage.SelectAnswer` | src/app/page.tsx:122-125 | selects the answer, except while the explanation is shown, when nothing changes |
| `Quiz.QuizPage.SubmitAnswer` | src/app/page.tsx:127-141 | without a selection nothing changes; otherwise the score rises by 1 only for a correct answer to a question not answered before, that question's flag (only) becomes true, and the explanation is shown; the score stays ≤ the answered count |
| `Quiz.QuizPage.NextQuestion` | src/app/page.tsx:143-151 | before the last question, moves to the next one and clears selection and explanation; on the last it only marks the quiz completed; the index stays in [0, 7] |
| `Quiz.QuizPage.Restart` | src/app/page.tsx:153-160 | restores the initial state |
| `Dashboard.WithDifficulty` | src/app/dashboard/page.tsx:174 | the filtered list holds exactly the exercises of the given difficulty and is no longer than the input |
| `Dashboard.WithDifficultyAppend` | src/app/dashboard/page.tsx:174 | filtering distributes over concatenation, so kept exercises stay in their original order |
| `Dashboard.FilteredSelects` | src/app/dashboard/page.tsx:172-174 | filter "all" returns the whole list; any other filter keeps each exercise of that difficulty as many times as it occurs, and no other exercise |
| `Dashboard.WithDifficultyCounts` | src/app/dashboard/page.tsx:174 | `filter` keeps each exercise of the difficulty with its number of occurrences, and drops every other one |
| `Dashboard.Filtered` | src/app/dashboard/page.tsx:172-174 | filter "all" gives the list unchanged; any other filter keeps exactly the exercises with that difficulty; the result is never longer than the list |
| `Dashboard.DashboardPage.FilteredExercises` | src/app/dashboard/page.tsx:172-174 | under "all" the page shows all its exercises; otherwise it shows exactly its own exercises of the chosen difficulty |
| `Dashboard.DifficultyLabel` | src/app/dashboard/page.tsx:185-192 | beginner, intermediate and advanced map to Iniciante, Intermediário and Avançado; any other input is returned unchanged |
| `Dashboard.Decimal` | src/app/dashboard/page.tsx:219 | `toString` of a whole number is a non-empty string of digits, of length 1 exactly when the number is below 10, with no leading zero |
| `Dashboard.DecimalRoundTrip` | src/app/dashboard/page.tsx:219 | reading back the decimal text of a number gives the number |
| `Dashboard.PaddedTwoDigits` | src/app/dashboard/page.tsx:219 | `padStart(2, '0')` of a number below 100 is two digits that read back as the number |
| `Dashboard.FormatTimeRoundTrip` | src/app/dashboard/page.tsx:216-220 | `formatTime(s)` is minutes, a colon and two seconds digits; reading it back gives (s / 60, s % 60), so minutes·60 + seconds = s and seconds < 60 |
| `Dashboard.PadStart2` | src/app/dashboard/page.tsx:219 | `padStart(2, '0')`: a string of at most two characters becomes exactly two, by zeros in front; a longer one is unchanged; the input is always the suffix |
| `Dashboard.FormatTime` | src/app/dashboard/page.tsx:216-220 | the text has at least four characters with the colon third from the end, and is exactly four characters iff the time is under ten minutes |
| `Dashboard.StepCount` | src/app/dashboard/page.tsx:333 | the step count is the number of instructions, or 1 when there are none |
| `Dashboard.CountdownFinishes` | src/app/dashboard/page.tsx:145-158 | a running countdown from d > 0 loses one second per tick, reaches 0 after exactly d ticks and then stops the exercise |
| `Dashboard.TickStep` | src/app/dashboard/page.tsx:145-158 | while running with time left, a tick takes one second off and keeps running iff more than one second was left; otherwise it changes nothing |
| `Dashboard.Ticks` | src/app/dashboard/page.tsx:145-158 | ticks never raise the time, and a countdown that is not running never moves |
| `Dashboard.StoppedStaysStopped` | src/app/dashboard/page.tsx:146 | once stopped at 0, further ticks change nothing |
| `Dashboard.DashboardPage.constructor` | src/app/dashboard/page.tsx:133-139 | the page starts loading, with no exercises, filter "all", nothing selected, step 0 and time 0 |
| `Dashboard.DashboardPage.LoadExercises` | src/app/dashboard/page.tsx:160-170 | loading installs the six mock exercises and ends the loading state |
| `Dashboard.DashboardPage.SetFilter` | src/app/dashboard/page.tsx:431-461 | the filter buttons set the filter and nothing else |
| `Dashboard.DashboardPage.StartExercise` | src/app/dashboard/page.tsx:194-203 | a premium exercise is not selected and the page goes to `/checkout`; a free one is selected at step 0 with its duration on the clock |
| `Dashboard.DashboardPage.BeginExercise` | src/app/dashboard/page.tsx:205-207 | starts exercising and changes nothing else |
| `Dashboard.DashboardPage.CloseExercise` | src/app/dashboard/page.tsx:209-214 | clears the selection, stops exercising, resets step and time to 0 |
| `Dashboard.DashboardPage.PreviousStep` | src/app/dashboard/page.tsx:326 | the step becomes max(0, step − 1), never negative |
| `Dashboard.DashboardPage.NextStep` | src/app/dashboard/page.tsx:333 | the step becomes min(len − 1, step + 1), never beyond the last instruction |
| `Dashboard.DashboardPage.Tick` | src/app/dashboard/page.tsx:145-158 | while exercising with time left, a tick takes one second off; at 1 second or less it sets the time to 0 and stops exercising; otherwise nothing changes; time is never negative |
| `Profile.TrimStart` | src/app/profile/page.tsx:56 | leading-whitespace removal leaves a string no longer than the input that is empty or starts with a non-whitespace character |
| `Profile.TrimStartIsSuffix` | src/app/profile/page.tsx:56 | leading-whitespace removal only drops characters from the front: the result is a suffix of the input |
| `Profile.TrimStartDropsBlank` | src/app/profile/page.tsx:56 | the characters removed from the front are all whitespace |
| `Profile.TrimEnd` | src/app/profile/page.tsx:56 | trailing-whitespace removal gives a prefix of the input that is empty or ends with a non-whitespace character |
| `Profile.Trim` | src/app/profile/page.tsx:56 | `trim()` gives a string no longer than the input that is empty or starts and ends with non-whitespace characters |
| `Profile.TrimEndDropsBlank` | src/app/profile/page.tsx:56 | the characters removed from the end are all whitespace |
| `Profile.TrimDropsOnlyBlank` | src/app/profile/page.tsx:56 | `trim()` is a slice of the string with only whitespace before it and only whitespace after it |
| `Profile.TrimStartEmpty` | src/app/profile/page.tsx:56 | removing leading whitespace leaves nothing iff the string is all whitespace |
| `Profile.TrimEndEmpty` | src/app/profile/page.tsx:56 | removing trailing whitespace from a string that starts with non-whitespace leaves it non-empty |
| `Profile.TrimEmptyIffBlank` | src/app/profile/page.tsx:56 | `trim()` yields the empty string iff the name is blank or whitespace only |
| `Profile.ValidationError` | src/app/profile/page.tsx:56-66 | a blank name gives "Nome completo é obrigatório"; otherwise a truthy age outside [13, 120] gives the age error; the profile passes iff the name is not blank and a truthy age lies in [13, 120] |
| `Profile.NameCheckedBeforeAge` | src/app/profile/page.tsx:56-66 | a blank name with a bad age reports only the name error |
| `Profile.FalsyAgeSkipsCheck` | src/app/profile/page.tsx:62-66 | a missing age or an age of 0 skips the range check |
| `Profile.NullIfEmpty` | src/app/profile/page.tsx:75-79 | `value || null` gives null exactly for the empty string and the value itself otherwise |
| `Profile.PayloadMapsEmptyToNull` | src/app/profile/page.tsx:71-81 | the payload maps empty gender, skin type, concerns and avatar URL to null, keeps non-empty ones, and passes name, age and experience level unchanged |
| `Profile.PayloadOf` | src/app/profile/page.tsx:71-81 | the payload carries the placeholder user id, `updated_at` = now, and the profile's name, age and experience level unchanged |
| `Profile.Get` | src/app/profile/page.tsx:8-18 | a field's value has that field's type: a number or null for the age, text for the rest |
| `Profile.With` | src/app/profile/page.tsx:100-102 | setting a field gives it the new value and leaves every other field unchanged |
| `Profile.ProfilePage.constructor` | src/app/profile/page.tsx:21-32 | the page starts loading, not saving, with no message, and with the initial profile: `experience_level` 'iniciante', age null, all other strings empty |
| `Profile.ProfilePage.LoadProfile` | src/app/profile/page.tsx:38-47 | loading only ends the loading state |
| `Profile.ProfilePage.HandleChange` | src/app/profile/page.tsx:100-102 | only the named field of the profile changes |
| `Profile.ProfilePage.HandleSubmit` | src/app/profile/page.tsx:49-98 | an invalid profile gets its validation message and no upsert; a valid one is upserted once with its payload, and the message is success, or the error's message (default "Erro ao salvar perfil"); `saving` is false on every exit |

## Left out

- Stripe's signature scheme (`webhooks.constructEvent`) and its tolerance window: a foreign
  library. It is the boolean `verified`.
- The webhook's 500 "Webhook processing failed" branch. Nothing inside its `try` throws in
  the model: the Supabase writes return their errors instead of throwing, and the handler
  never inspects them.
- The Supabase clients and network calls. They are operations on the in-memory table
  (webhook) and a log of upsert payloads (profile). The profile upsert's answer is a
  parameter.
- `stripe.checkout.sessions.create`, `fetch`, `window.location`, `router.push`,
  `setTimeout` and `setInterval`. These are I/O and timers:
  - the session request is a function parameter;
  - the premium redirect is a returned path;
  - the profile page's two-second redirect after saving is not modelled;
  - one interval firing is the `Tick` method.
- `new Date().toISOString()`: an opaque `now` string parameter.
- Console logging in every file.
- Fields of the JSON body that are not strings, such as a number given as `planType`. A
  body field is a string or absent.
- Concurrent or out-of-order redelivery of webhooks. One event is handled at a time, and
  redelivery is a sequence of calls (`DeliverAll`).
- Floating point:
  - the quiz percentage is computed with exact rationals; with eight questions every
    double involved is exact, so the thresholds agree;
  - progress-bar widths and rounded percent displays are rendering.
- All JSX rendering, CSS class choice (`getDifficultyColor`), the auth, checkout and
  progress pages, and client construction in `src/lib/stripe.ts` and `src/lib/supabase.ts`.
- Dashboard.DashboardPage.StartExercise: exercise durations are whole non-negative seconds
  (`nat`), as in all six mock exercises; a negative or fractional duration is not modelled.
- Dashboard.FormatTimeRoundTrip: only non-negative whole seconds, the only values the
  countdown holds; JavaScript's output for negative or fractional input is not modelled.
- Dashboard.DashboardPage.NextStep: requires an open exercise, because its button exists
  only in the exercise view.
- Dashboard.DashboardPage.SetFilter: requires one of the four filter values, the only
  ones its buttons pass.
- Profile.ValidationError: an age of `NaN` (from `parseInt` on odd input) is not modelled;
  the age is a whole number or null.
- Profile.ProfilePage.HandleChange: requires a value of the field's type. The TypeScript
  signature takes `any`, but every call site passes text, or a number or null for the age.
  The optional `id` and `user_id` fields are never edited and are left out.

# FootRate AI — a Dafny model of its decision logic

FootRate AI is a web app. A user uploads a photo of their feet, a vision
model or an offline heuristic scores it, and the app shows the rating, a
meme verdict and a shareable card. Free users get three analyses a month.
Pro users get fifty and pay through Dodo Payments: a checkout endpoint, a
return page and two webhook receivers move users between the tiers.

This project models the pure decision logic behind that flow. Every
database row, API reply, clock reading and random draw is a parameter.
The model covers:

- **Subscription ledger** (`Ledger`, `SubscriptionService`,
  `EnhancedSubscription`). The `user_subscriptions` table is a
  `map<UserId, Record>`. Each service operation is a total function from
  table to table, together with the status it reports.
- **Payments** (`DodoWebhook`, `DodoPaymentWebhook`, `PaymentSession`,
  `PaymentReturn`, `PaymentFlow`). The two webhook receivers map an event
  to a table change and an HTTP status. The checkout endpoint builds test
  and production URLs. The return page dispatches on the query
  parameters. Lemmas follow an address end to end, from the code that
  builds it to the page that reads it.
- **Analysis results** (`AnalysisResult`, `HeuristicScorer`). The model
  answer is turned into a fixed record with defaults filled in. Tips are
  derived from issue keywords. The offline scorer clamps, weights, detects
  issues and de-duplicates tips.
- **Classifiers and screens** (`MemeVerdicts`, `DetailedAnalysisDisplay`,
  `RatingDisplay`, `RatingHistory`, `Stars`, `PhotoUpload`, `IndexView`).
  These cover the score bands, colours, star rows and conditional cards,
  the order in which the upload handler gates its work, and the top-level
  screen state machine.
- **Share-card geometry** (`ShareCard`). This covers watermark placement,
  fitting the photo into its box, the greedy word wrap of the verdict and
  the badge box. Text measurement is an arbitrary width function.

Helper modules hold shared text machinery, each tied to what the app
does with it:

- `QueryString` models how `URLSearchParams` reads the addresses the app
  builds.
- `UriComponent` models `encodeURIComponent`, including its UTF-8 step.
- `JsonText` models `JSON.stringify` of flat string objects.
- `Strings`, `Seqs`, `Numeric` and `Wrappers` are general helpers.

Conventions:

- Instants are integer milliseconds. Date columns hold integer day
  numbers. A date column is read back as its UTC midnight.
- "One calendar month from today" (`new Date(y, m + 1, d)`) is an input
  day number.
- A column a JavaScript update leaves `undefined` is unchanged. This is
  modelled with `Option`, where `None` means "keep".
- The billing-period columns have the `date` type, so a full ISO timestamp
  written to them (as api/webhooks/dodo-payment.js lines 73-74 do) is stored
  as its UTC day, `Ledger.DayOf`.

## Model

| member | source | states |
|---|---|---|
| Ledger.DayOf | src/lib/enhancedSubscriptionService.ts:107 | the date written for an instant is the UTC day containing it |
| Ledger.DaysUntil | src/lib/enhancedSubscriptionService.ts:61 | whole days until a date's midnight, rounded up; zero exactly when that midnight has passed |
| Ledger.TierOf | api/webhooks/dodo.js:68 | a plan string copied into the tier column is pro exactly for 'pro' and free exactly for 'free' |
| Ledger.TierName | api/webhooks/dodo.js:68 | the tier column text reads back as the same tier |
| Ledger.LimitFor | api/webhooks/dodo.js:69 | the monthly limit is 50 exactly for plan 'pro', otherwise 3 |
| SubscriptionService.StatusOf | src/lib/subscriptionService.ts:52-63 | remaining is never negative and equals limit minus used when positive; canAnalyze iff used < limit; needsUpgrade iff at the limit on the free tier, so a pro user at the limit is never flagged |
| SubscriptionService.GetSubscriptionStatus | src/lib/subscriptionService.ts:30-68 | a user without a row gets a new free row and the fixed fresh status; otherwise the table is unchanged and the status follows the row |
| SubscriptionService.FreshStatusMatchesNewRow | src/lib/subscriptionService.ts:38-49 | the fixed status reported after creating the row is the status that row has (can analyse, 3 left, free, 0 of 3) |
| SubscriptionService.CanPerformAnalysis | src/lib/subscriptionService.ts:73-76 | analysis is allowed iff the user has no row yet (one is created free) or used < limit |
| SubscriptionService.IncrementUsage | src/lib/subscriptionService.ts:87-103 | the fallback adds exactly one to the user's usage, only when a row exists, and touches no other row |
| SubscriptionService.GatedIncrementKeepsQuota | src/lib/subscriptionService.ts:73-103 | a user who passes the gate and is counted once ends at most at the limit |
| SubscriptionService.CreateFreeSubscription | src/lib/subscriptionService.ts:114-133 | inserts a free row with limit 3 and usage 0 for a user without one; fails for a user who has one; no other row changes |
| SubscriptionService.UpgradeToPro | src/lib/subscriptionService.ts:139-160 | pro tier, limit 50, active payment, the given payment id; usage and every other column kept; fails for a user without a row |
| SubscriptionService.CancelProSubscription | src/lib/subscriptionService.ts:165-185 | free tier, limit 3, payment canceled; usage and every other column kept; fails for a user without a row |
| SubscriptionService.CancelKeepsProUsage | src/lib/subscriptionService.ts:165-185 | a pro user who used more than 3 is over the free limit after cancelling: blocked and flagged for upgrade |
| SubscriptionService.HandlePaymentSuccess | src/lib/subscriptionService.ts:273-283 | the user's row becomes pro with limit 50, an active payment and the session id as payment id, every other column (usage included) and every other row unchanged |
| SubscriptionService.CheckoutRequestFor | src/lib/subscriptionService.ts:193-197 | the client asks for amount 9 for 'pro' and 0 for any other plan |
| SubscriptionService.InitiateDodoPayment | src/lib/subscriptionService.ts:191-268 | never fails; the demo shortcut and a failed server call give the local success address with demo=true or fallback=true, otherwise the server's URL; the pending keys always name the user and plan |
| SubscriptionService.LocalSuccessUrlParams | src/lib/subscriptionService.ts:206-261 | the local success address reads back with the session id, the plan, the marker flag and no mode |
| EnhancedSubscription.LogHistory | src/lib/enhancedSubscriptionService.ts:252-278 | appends exactly the entry when the insert succeeds; a failed insert is swallowed; subscriptions never change |
| EnhancedSubscription.FreshRecord | src/lib/enhancedSubscriptionService.ts:98-110 | a new row is free, limit 3, usage 0, active, billed from today to one month later, with no cancellation data |
| EnhancedSubscription.CreateFreeSubscription | src/lib/enhancedSubscriptionService.ts:97-124 | inserts the fresh row and reports canAnalyze with 30 days to reset; fails when the user has a row; logs 'created' |
| EnhancedSubscription.GetSubscriptionStatus | src/lib/enhancedSubscriptionService.ts:41-94 | a missing row is created; a row that is not canceled gives canAnalyze iff used < limit; a canceled row in grace (grace end, else billing end) gives the same; past grace a pro row is downgraded and re-read and a free row cannot analyse |
| EnhancedSubscription.CancelSubscription | src/lib/enhancedSubscriptionService.ts:127-175 | a free row gives success false and nothing is written; otherwise the row is canceled now with grace end today when immediate, else the billing end, tier kept |
| EnhancedSubscription.CancelRecord | src/lib/enhancedSubscriptionService.ts:140-170 | the cancellation write changes only the user's status, cancel time, reason and grace end, and reports the effective date |
| EnhancedSubscription.DowngradedRecord | src/lib/enhancedSubscriptionService.ts:182-196 | free, limit 3, usage 0, active, a new billing period, all cancellation columns cleared, payment columns kept |
| EnhancedSubscription.DowngradeToFree | src/lib/enhancedSubscriptionService.ts:178-201 | only the user's row becomes the downgraded row; 'downgraded' is logged even when no row matched |
| EnhancedSubscription.ReactivateSubscription | src/lib/enhancedSubscriptionService.ts:204-232 | succeeds only on a row still canceled after the status read: active, cancellation cleared, tier and usage kept |
| EnhancedSubscription.UpgradeSubscription | src/lib/enhancedSubscriptionService.ts:402-425 | tier = plan, limit 50 for 'pro' else 3, usage 0, active, new period, cancel time and reason cleared, grace end untouched; a missing row is not created |
| EnhancedSubscription.HandlePaymentSuccess | src/lib/enhancedSubscriptionService.ts:459-475 | the upgrade (tier = plan, its limit, usage 0, active, new period, cancellation cleared, grace end kept, 'upgraded' logged), then the session id as payment id and an active payment status; when that second update fails the upgrade stands and the old payment columns stay |
| EnhancedSubscription.FailedPaymentUpdateIsPlainUpgrade | src/lib/enhancedSubscriptionService.ts:459-472 | a failed payment-column update is only logged, so the outcome is exactly the upgrade alone |
| EnhancedSubscription.PaidProUserCanAnalyze | src/lib/enhancedSubscriptionService.ts:459-475 | after a paid pro upgrade a status read changes nothing and allows analysis, with limit 50 and usage 0 |
| EnhancedSubscription.ImmediateCancelDowngradesSameDay | src/lib/enhancedSubscriptionService.ts:67-148 | an immediate cancel stores today as the grace end, so a status read later that day downgrades a pro row at once and resets its usage |
| EnhancedSubscription.CancelThenReactivateRestores | src/lib/enhancedSubscriptionService.ts:127-232 | cancelling at the period end and reactivating within the period restores the active pro row with the same usage, limit and period |
| EnhancedSubscription.UpgradeKeepsGraceEnd | src/lib/enhancedSubscriptionService.ts:406-419 | upgrading a canceled row clears its cancel time and reason but keeps its grace end |
| DodoWebhook.PaidRecord | api/webhooks/dodo.js:67-78 | tier = plan, limit 50 for 'pro' else 3, usage 0, both statuses active, a 30-day period from today, the session id as payment id |
| DodoWebhook.PaymentSuccess | api/webhooks/dodo.js:58-107 | a failed update or missing metadata is an error; otherwise only that user's row is updated (none created), and 'upgraded' is logged unless the insert fails |
| DodoWebhook.Matching | api/webhooks/dodo.js:128-136 | exactly the users whose stored payment id is the event's id |
| DodoWebhook.CanceledRecord | api/webhooks/dodo.js:139-147 | status canceled at now, the given non-empty reason or 'Cancelled via Dodo Payment', tier, limit and usage kept |
| DodoWebhook.SubscriptionCancelled | api/webhooks/dodo.js:123-158 | unless exactly one row matches the id and the update succeeds, nothing changes; otherwise that row is canceled |
| DodoWebhook.Handle | api/webhooks/dodo.js:11-56 | 405 with no change for a method other than POST; payment.success gives 200, or 500 on error; a cancellation gives 200; payment.failed and unknown events give 200 with no change |
| DodoWebhook.SignatureIgnored | api/webhooks/dodo.js:17-29 | the answer and the tables do not depend on the signature header |
| DodoWebhook.HistoryFailureKeepsUpgrade | api/webhooks/dodo.js:85-99 | a failed history insert leaves the same subscription rows and the same 200 |
| DodoWebhook.CancelEventKeepsTier | api/webhooks/dodo.js:123-158 | a unique pro row becomes a canceled pro row with usage and limit unchanged |
| DodoPaymentWebhook.InsertedRecord | api/webhooks/dodo-payment.js:66-78 | the new row: tier = plan, limit 50 or 3, usage 0, a 30-day period from today, the session id as payment id, payment active, every column the payload does not name at its default |
| DodoPaymentWebhook.CheckoutCompleted | api/webhooks/dodo-payment.js:54-90 | without a user id or plan nothing changes; otherwise a row is inserted for a user who has none and nothing else changes; missing metadata, a store failure or a user who already has a row is an error |
| DodoPaymentWebhook.UpdateWherePaymentId | api/webhooks/dodo-payment.js:98-104 | a function is applied to exactly the rows whose payment id matches |
| DodoPaymentWebhook.SubscriptionPayment | api/webhooks/dodo-payment.js:92-116 | only the payment status changes, to active, and only on rows whose payment id is the invoice's subscription |
| DodoPaymentWebhook.SubscriptionDeleted | api/webhooks/dodo-payment.js:118-143 | matching rows become free with limit 3 and payment canceled; usage and status kept; other rows unchanged |
| DodoPaymentWebhook.Handle | api/webhooks/dodo-payment.js:6-52 | 405 for a method other than POST; 400 without signature or secret; otherwise dispatch, 200 for success or an unknown type, 400 with no change when a handler fails |
| DodoPaymentWebhook.ExistingUserCheckoutRejected | api/webhooks/dodo-payment.js:30-51 | a checkout for a user who already has a row is answered 400 and leaves the database unchanged |
| DodoPaymentWebhook.CheckoutRedeliveryRejected | api/webhooks/dodo-payment.js:66-83 | a second delivery of a checkout event that succeeded fails, at whatever instant it arrives |
| DodoPaymentWebhook.RenewalAfterDeletionStaysFree | api/webhooks/dodo-payment.js:98-131 | a renewal after a deletion re-activates the payment but leaves the free tier and limit |
| PaymentSession.Handle | api/create-payment-session.js:4-101 | CORS headers on every answer; OPTIONS 200; other methods 405; a missing body 500; a falsy userId, plan or amount 400; otherwise 200 with the test URL when test mode is on, else the checkout URL, and the same session id in the URL and the body |
| PaymentSession.TestUrlParams | api/create-payment-session.js:39-45 | the test address reads back as exactly the query it was built from |
| PaymentSession.TestQueryValues | api/create-payment-session.js:39-45 | the test query carries the session id, plan, amount and user id with mode 'test' and upgrade 'true' |
| PaymentSession.SuccessTargetParams | api/create-payment-session.js:65 | the return address after paying reads back as its query |
| PaymentSession.SuccessQueryValues | api/create-payment-session.js:65 | that query carries the session id and plan, mode 'production' and no upgrade flag |
| PaymentSession.CheckoutUrlParams | api/create-payment-session.js:63-67 | a checkout address reads back as its quantity, success_url, cancel_url and metadata parameters |
| PaymentSession.ProductionUrlParams | api/create-payment-session.js:63-67 | the checkout address decodes to the site's success page, the cancelled page with the session id, and the metadata JSON |
| PaymentReturn.PlanOf | src/pages/PaymentSuccess.tsx:18 | the plan parameter when present and non-empty, else 'pro' |
| PaymentReturn.BranchOf | src/pages/PaymentSuccess.tsx:25-175 | no branch without a non-empty session; simulation only with upgrade=true; every other mode or no mode is the legacy branch |
| PaymentReturn.TargetOf | src/pages/PaymentSuccess.tsx:30-189 | the four mode branches upgrade the signed-in user; the legacy branch upgrades the stored pending user; nobody is upgraded without a session |
| PaymentReturn.OnReturn | src/pages/PaymentSuccess.tsx:24-210 | no session means no change; a branch without a target still shows success; an upgrade of a user without a row shows the error and changes nothing; the legacy branch clears the three pending keys |
| PaymentReturn.UserIdParamIgnored | src/pages/PaymentSuccess.tsx:20-189 | the outcome is the same with every userId parameter removed |
| PaymentReturn.SimulationWithoutUpgradeIsLegacy | src/pages/PaymentSuccess.tsx:106 | mode=simulation without upgrade=true falls through to the legacy branch |
| PaymentReturn.NoModeUpgradesStoredUser | src/pages/PaymentSuccess.tsx:175-189 | an address with a session and no mode upgrades the stored user to pro with the address's session id and clears the storage |
| PaymentFlow.TestSessionUpgradesSignedInUser | api/create-payment-session.js:35-55 | a test-mode session lands on the test branch and upgrades the signed-in user, not the user named in the request |
| PaymentFlow.ProductionReturnIsProductionBranch | api/create-payment-session.js:65 | the address the checkout returns to lands on the production branch with the endpoint's session id |
| PaymentFlow.LocalAddressUpgradesInitiator | src/lib/subscriptionService.ts:206-261 | the demo and fallback addresses carry no mode, so the return page takes the legacy path and upgrades the user who started checkout, whoever is signed in |
| PaymentFlow.NonProPlanRejected | src/lib/subscriptionService.ts:196 | the amount 0 the client sends for a plan other than 'pro' is rejected by the endpoint with 400 |
| QueryString.ParseBuilt | src/pages/PaymentSuccess.tsx:17-21 | a query built from well-formed pairs parses back to exactly those pairs |
| QueryString.LookupFirst | src/pages/PaymentSuccess.tsx:17-21 | get(name) finds a value iff some pair has that name, and then it is the first such pair's value |
| UriComponent.EncodeChar | api/create-payment-session.js:65-67 | an unreserved character is kept and every other one is percent-escaped; the output uses only safe characters |
| UriComponent.DecodeEncode | api/create-payment-session.js:65-67 | decoding an encoded string gives back the string |
| JsonText.ReadEscapeBody | api/create-payment-session.js:67 | reading a JSON-escaped string body gives back the string |
| Strings.LowerChar | src/lib/realFootAnalysisAI.ts:255 | `toLowerCase` on A-Z, the Kelvin sign (to `k`) and U+0130 (to `i` and a combining dot); every other character is kept |
| Strings.ToLowerFolds | src/lib/realFootAnalysisAI.ts:255 | `toLowerCase` leaves nothing to fold; text with nothing to fold comes back unchanged; only U+0130 lengthens it |
| Strings.ToLowerIdempotent | src/lib/realFootAnalysisAI.ts:255 | lower-casing twice is lower-casing once |
| Strings.ToLowerAppend | src/lib/realFootAnalysisAI.ts:255 | lower-casing a concatenation is concatenating the lower-cased parts |
| Strings.JoinSplit | src/lib/imageWatermark.ts:226 | joining the pieces of a split with the separator gives back the text |
| Seqs.DedupIsFirstOccurrences | src/lib/realFootAnalysisAI.ts:264 | `[...new Set(xs)]` keeps the first occurrence of each value, in order |
| AnalysisResult.ExtractTips | src/lib/realFootAnalysisAI.ts:239-265 | empty exactly for absent or empty issues; otherwise the matched tips, each once in the order first pushed (issue by issue, keys in map order), or the consultation tip alone when nothing matched |
| AnalysisResult.TipGivenIffMentioned | src/lib/realFootAnalysisAI.ts:254-264 | a keyed tip is given iff some issue mentions its key, ignoring case |
| AnalysisResult.KelvinSignMentionsCrack | src/lib/realFootAnalysisAI.ts:254-258 | an issue written with the Kelvin sign for its last letter mentions `crack` and gets the cracked-skin tip |
| AnalysisResult.ConsultIffNothingMentioned | src/lib/realFootAnalysisAI.ts:264 | the consultation tip is given iff no issue mentions any key, and then it is the only tip |
| AnalysisResult.TipTextsDistinct | src/lib/realFootAnalysisAI.ts:242-252 | the nine tip texts differ from each other and from the consultation tip |
| AnalysisResult.Normalise | src/lib/realFootAnalysisAI.ts:199-223 | a truthy score, then the fallback section's, then 5; a truthy feedback, then the fallback's, then 'Detailed analysis required'; tips from the issues |
| AnalysisResult.Structure | src/lib/realFootAnalysisAI.ts:195-230 | a foot unless the field is exactly false; overall and confidence default to 5 and 75; footShape falls back to footStructure; list and warning defaults |
| AnalysisResult.ScrapedKeys | src/lib/realFootAnalysisAI.ts:273-276 | the lower-cased names of the matches, each exactly once; empty iff nothing matched |
| AnalysisResult.LastScore | src/lib/realFootAnalysisAI.ts:273-276 | the score stored under a name exists iff some match has that name, and it is the score of the last such match |
| AnalysisResult.ScrapedScores | src/lib/realFootAnalysisAI.ts:283-286 | one stored score per distinct name, in the order of `ScrapedKeys` |
| AnalysisResult.FromText | src/lib/realFootAnalysisAI.ts:267-290 | not a foot iff the lowered text says 'not a foot'; confidence 85; overall the mean of the stored scores, or 5 with nothing matched; only symmetry and cleanliness sections, each present iff a match has that name and carrying its last score |
| AnalysisResult.DistinctNamesMean | src/lib/realFootAnalysisAI.ts:279-289 | with all names distinct, the overall score is the plain mean of the matched scores |
| AnalysisResult.ScrapedMeanBounds | src/lib/realFootAnalysisAI.ts:282-287 | matched scores within [lo, hi] give an overall score within [lo, hi] |
| AnalysisResult.ParseAIResponse | src/lib/realFootAnalysisAI.ts:160-237 | a not-a-foot marker gives the fixed not-a-foot record; otherwise the parsed object, or the text fallback when parsing failed, is structured; the fallback's overall score is the mean of the stored scores unless that is 0 or nothing matched, then 5 |
| AnalysisResult.NotFootScores | src/lib/realFootAnalysisAI.ts:163-179 | that record has no foot, every score 0 and confidence 100 |
| AnalysisResult.StructuredScoresInRange | src/lib/realFootAnalysisAI.ts:197-223 | given scores in [1, 10] keep every category of the result in [1, 10] |
| AnalysisResult.CalculateOverallScore | src/lib/realFootAnalysisAI.ts:292-302 | the mean of the five scores `FiveScores` gives |
| AnalysisResult.FiveScores | src/lib/realFootAnalysisAI.ts:293-299 | five scores, none 0; each is the given score when truthy and 5 otherwise; shape falls back to structure |
| AnalysisResult.FiveScoresAreShown | src/lib/realFootAnalysisAI.ts:293-299 | the five averaged scores are exactly the category scores the structured result shows |
| AnalysisResult.OverallScoreInRange | src/lib/realFootAnalysisAI.ts:292-302 | given scores in [1, 10] give a mean in [1, 10] |
| AnalysisResult.OverallScoreDefault | src/lib/realFootAnalysisAI.ts:292-302 | with no category given the mean is exactly 5 |
| HeuristicScorer.FeatureScore | src/lib/footAnalysisAI.ts:263-264 | base plus jitter clamped into [1, 10], and unchanged when already inside |
| HeuristicScorer.StepFeaturesUnclamped | src/lib/footAnalysisAI.ts:224-264 | for the step-wise features a jitter under 0.2 never reaches the lower clamp |
| HeuristicScorer.Thresholds | src/lib/footAnalysisAI.ts:124-179 | the tier cut points descend: 8, 6, 4 for skin and nails, 8, 6 for the others |
| HeuristicScorer.Analyze | src/lib/footAnalysisAI.ts:117-221 | the shown score is the clamped score rounded to a tenth, in [1, 10], and the tier follows the unrounded score |
| HeuristicScorer.ShownEightWithSecondTier | src/lib/footAnalysisAI.ts:124-138 | a raw 7.96 is shown as 8.0 but carries the second tier's feedback |
| HeuristicScorer.WeightedBetween | src/lib/footAnalysisAI.ts:273-289 | the weights sum to one, so the overall score lies between the lowest and highest category score |
| HeuristicScorer.WeightedMonotone | src/lib/footAnalysisAI.ts:273-289 | raising one category score never lowers the overall score |
| HeuristicScorer.DetectIssues | src/lib/footAnalysisAI.ts:291-301 | a category's issue text is present iff its score is below 5; at most five texts, all from the fixed list, each once, in category order |
| HeuristicScorer.ImprovementTips | src/lib/footAnalysisAI.ts:303-314 | at most five tips, no repeats, each one a category's tip |
| HeuristicScorer.ImprovementTipsAreFirstDistinct | src/lib/footAnalysisAI.ts:303-314 | the tips are the first five distinct tips in category order |
| HeuristicScorer.Confidence | src/lib/footAnalysisAI.ts:316-329 | never above 95, and at least 60 for statistics in range |
| HeuristicScorer.AnalyzeFootImage | src/lib/footAnalysisAI.ts:49-110 | the five categories are the feature analyses of the given jitters; the overall score is the weighted mean of the shown scores rounded to a tenth, in [1, 10]; the issues and tips are derived from those categories; confidence at most 95 |
| Numeric.Round | src/lib/memeVerdicts.ts:92 | the nearest integer, halves rounding up |
| Numeric.RoundTenth | src/lib/footAnalysisAI.ts:80 | `Math.round(x * 10) / 10` is a whole number of tenths within half a tenth of x, halves rounding up |
| Numeric.RoundTenthUnique | src/lib/footAnalysisAI.ts:80 | any whole number of tenths in (x - 0.05, x + 0.05] is the rounded value, so the two properties pin it |
| Numeric.Clamp | src/lib/footAnalysisAI.ts:264 | the value kept inside [lo, hi], unchanged when already inside |
| Numeric.TierIndex | src/lib/memeVerdicts.ts:78-89 | the first threshold the score reaches, or one past the last |
| Numeric.TierMonotone | src/lib/memeVerdicts.ts:78-89 | a higher score never lands in a lower band |
| MemeVerdicts.ScoreKey | src/lib/memeVerdicts.ts:92-93 | the rounded score clamped into 1..10 |
| MemeVerdicts.Pick | src/lib/memeVerdicts.ts:94-95 | the index drawn is inside the key's list |
| MemeVerdicts.GetMemeVerdict | src/lib/memeVerdicts.ts:91-110 | the verdict and emoji come from the list of the score's key; the strip comes from the unrounded score; the share text names the emoji and the key out of ten |
| MemeVerdicts.StripMatchesKey | src/lib/memeVerdicts.ts:78-106 | the half-point emoji band always agrees with the rounded key |
| MemeVerdicts.VerdictMonotone | src/lib/memeVerdicts.ts:78-106 | a higher score never gets a lower key or a weaker strip |
| MemeVerdicts.ShareTextMentions | src/lib/memeVerdicts.ts:104 | the share text contains the emoji and "key/10" |
| PhotoUpload.HandleFile | src/components/PhotoUpload.tsx:67-142 | a non-image file is only refused; a gated user only gets the upgrade panel; completion happens iff the file is an image, the user is not gated and a foot was found; nothing is counted otherwise |
| PhotoUpload.Analyse | src/components/PhotoUpload.tsx:94-142 | an error or a not-a-foot result counts nothing and saves nothing; without a user nothing is counted or saved; with one, one increment then a save |
| PhotoUpload.RecordAndComplete | src/components/PhotoUpload.tsx:110-142 | exactly one increment before the save; a failed increment changes nothing and still completes |
| PhotoUpload.UploadKeepsQuota | src/components/PhotoUpload.tsx:78-119 | with the gate reading the current row, an upload never takes a user past the limit |
| PhotoUpload.SecondUploadGated | src/components/PhotoUpload.tsx:78-119 | with one analysis left, the next upload completes and the one after is gated |
| PhotoUpload.BannersFromRow | src/components/PhotoUpload.tsx:397-408 | the upgrade button iff a free user has used the whole limit; the warning iff one or two are left; never both |
| ShareCard.TextPosition | src/lib/imageWatermark.ts:63-83 | left positions sit at the padding, right ones end the padding before the edge; top ones one font size plus padding down, bottom ones the padding up; anything else is bottom-right |
| ShareCard.WatermarkPlacement | src/lib/imageWatermark.ts:16-83 | the given text or the footprint default; the two left corners start at the padding, every other position ends the text at the padding from the right; the two top corners sit one font size plus the padding from the top, every other position at the padding from the bottom; padding 20 and size 16 when absent |
| ShareCard.DefaultWatermarkBottomRight | src/lib/imageWatermark.ts:16-24 | with no options the default text ends 20 from the right edge on a baseline 20 above the bottom |
| ShareCard.TextKeepsPadding | src/lib/imageWatermark.ts:63-83 | a text that fits keeps the padding clear of every edge, whatever the position |
| ShareCard.Fit | src/lib/imageWatermark.ts:143-147 | the scaled photo fits 500 x 350, keeps its aspect ratio and fills one side |
| ShareCard.VerdictText | src/lib/imageWatermark.ts:223 | the meme verdict when non-empty, else 'Foot Analysis Complete' |
| ShareCard.WrapWords | src/lib/imageWatermark.ts:225-241 | the lines and the last line together hold every word followed by one space, in order; each line grew only while it fitted and broke where the next word overflowed; the last baseline is 35 per line lower |
| ShareCard.LayoutLines | src/lib/imageWatermark.ts:229-240 | no break before the first word; a break only where the next word overflowed; every drawn line measures at most 800 or holds one word; no drawn line is empty |
| ShareCard.Badge | src/lib/imageWatermark.ts:249-255 | the badge's right edge is 20 from the card's, its top at 20, the text width plus 24 wide and 36 high |
| ShareCard.PhotoBox | src/lib/imageWatermark.ts:143-151 | the photo is centred horizontally, 120 from the top, within the middle 500 of the card, aspect kept |
| ShareCard.ShareableImage | src/lib/imageWatermark.ts:101-321 | the score sits 100 below the photo; the verdict lines lose no word and none is empty; measured in the verdict font, each drawn line is at most 800 wide or one word, and a line breaks only where the next word overflowed; they start 80 below the score, 35 apart; the badge appears iff requested and is sized by the badge font's width of its text |
| ShareCard.WrapVerdict | src/lib/imageWatermark.ts:216-241 | the verdict split on spaces is wrapped losslessly into non-empty lines, each at most 800 wide or one word, breaking only on overflow |
| Stars.Row | src/components/RatingDisplay.tsx:42-51 | star i is filled iff i is below the threshold |
| Stars.FilledRow | src/components/RatingDisplay.tsx:42-51 | a row fills the threshold rounded up, clamped to the row's length |
| DetailedAnalysisDisplay.RatingCategory | src/components/DetailedAnalysisDisplay.tsx:32-39 | six disjoint bands that cover every score, cut at 9, 8, 7, 6 and 4 |
| DetailedAnalysisDisplay.RatingMonotone | src/components/DetailedAnalysisDisplay.tsx:32-39 | a higher score never gets a worse band |
| DetailedAnalysisDisplay.ScoreColor | src/components/DetailedAnalysisDisplay.tsx:46-51 | four colour bands cut at 8, 6 and 4 |
| DetailedAnalysisDisplay.ColourFollowsRating | src/components/DetailedAnalysisDisplay.tsx:32-51 | green for the top two rating bands, yellow for the next two, orange for Fair, red for Needs Improvement |
| DetailedAnalysisDisplay.BreakdownAsWritten | src/components/DetailedAnalysisDisplay.tsx:120-215 | the breakdown as drawn: each row shows its own category, except that the Symmetry row shows the foot-shape feedback |
| DetailedAnalysisDisplay.SymmetryRowShowsShapeFeedback | src/components/DetailedAnalysisDisplay.tsx:196 | when the two feedback texts differ, the Symmetry row shows text that is not the symmetry feedback |
| DetailedAnalysisDisplay.Breakdown | src/components/DetailedAnalysisDisplay.tsx:120-215 | every row shows its own category's score and feedback, the colour of its score and a bar of ten times the score |
| DetailedAnalysisDisplay.AsWrittenDiffersOnlyInSymmetryFeedback | src/components/DetailedAnalysisDisplay.tsx:196 | the drawn breakdown differs from the intended one only in the Symmetry row's feedback |
| DetailedAnalysisDisplay.ProgressInRange | src/components/DetailedAnalysisDisplay.tsx:139 | a score in [0, 10] gives a progress value in [0, 100] |
| DetailedAnalysisDisplay.Render | src/components/DetailedAnalysisDisplay.tsx:30-307 | nothing without an analysis; otherwise the band, the meme key, ten stars with floor(score) filled, the breakdown as drawn (shape feedback under Symmetry), each card iff its list is non-empty, the validation-failure panel iff no foot was found, and the medical notice iff the warning is non-empty |
| DetailedAnalysisDisplay.RenderedRowsDifferOnlyInSymmetryFeedback | src/components/DetailedAnalysisDisplay.tsx:185-200 | the rendered breakdown equals the intended one except for the Symmetry row's feedback, which is the foot-shape feedback |
| DetailedAnalysisDisplay.StarsShowWholePart | src/components/DetailedAnalysisDisplay.tsx:95-103 | a score in [1, 10] fills exactly its whole part, at least one star |
| DetailedAnalysisDisplay.NotFootScreen | src/components/DetailedAnalysisDisplay.tsx:281-290 | the not-a-foot record shows the validation panel, no stars, the lowest band and both cards |
| RatingDisplay.Category | src/components/RatingDisplay.tsx:11-16 | four disjoint bands covering every score: 9 and up, 8 to 9, 7 to 8, below 7 |
| RatingDisplay.Render | src/components/RatingDisplay.tsx:8-51 | nothing for a null rating; otherwise the band and ten stars with star i filled iff i < rating |
| RatingDisplay.StarsForRating | src/components/RatingDisplay.tsx:42-51 | a rating in [0, 10] fills its value rounded up; a whole rating fills exactly itself |
| RatingHistory.Fetched | src/components/RatingHistory.tsx:35-52 | a failed query or no data gives the empty list; otherwise the rows |
| RatingHistory.AverageRating | src/components/RatingHistory.tsx:61-63 | the mean overall score, 0 for no rows |
| RatingHistory.AverageInRange | src/components/RatingHistory.tsx:61-63 | the average lies within the range of the scores |
| RatingHistory.ShadeOf | src/components/RatingHistory.tsx:155-179 | green from 7, yellow from 5, red below |
| RatingHistory.EntryOf | src/components/RatingHistory.tsx:54-179 | the band of the overall score, five stars with floor(score / 2) filled, and the five category shades |
| RatingHistory.HalfStars | src/components/RatingHistory.tsx:139-146 | a score in [0, 10] fills floor(score / 2) stars, each one standing for two whole points |
| RatingHistory.Render | src/components/RatingHistory.tsx:65-94 | loading shows the loading state; afterwards the empty state iff no rows, else the list with its average |
| RatingHistory.FailedQueryShowsEmpty | src/components/RatingHistory.tsx:45-49 | a failed query ends in the empty state, not an error |
| IndexView.Initial | src/pages/Index.tsx:19-21 | a new page is on the landing state with no analysis and count 0 |
| IndexView.ScreenOf | src/pages/Index.tsx:23-55 | loading whenever loading; landing without a user unless on auth; auth without a user on auth; the dashboard for any signed-in user |
| IndexView.Step | src/pages/Index.tsx:40-181 | a button not on screen changes nothing; Get Started, auth success and Back set the state; a completion replaces the analysis and adds one to the count |
| IndexView.GetStartedThenBack | src/pages/Index.tsx:41-49 | Get Started shows the auth screen and Back returns to the landing page |
| IndexView.AuthSuccessNeedsSession | src/pages/Index.tsx:45-55 | auth success alone falls back to the landing page; once a user arrives the dashboard shows |
| IndexView.ScreenPriority | src/pages/Index.tsx:23-55 | loading overrides everything; a signed-in user sees the dashboard whatever the state |
| IndexView.CompletionsCount | src/pages/Index.tsx:178-181 | n completions on the dashboard add n to the count and leave the last analysis showing |
| IndexView.SignOutKeepsCounter | src/pages/Index.tsx:19-55 | signing out and back in shows the dashboard with the same analysis and count |

## Left out

- The hosted `increment_analysis_usage` procedure of `incrementUsage` is not modelled; only the read-then-write fallback is. The read-then-write race under concurrent uploads is out too: every operation is one atomic step.
- Database and network failures are inputs where they are modelled: the webhook update and history faults, the checkout upsert fault, the enhanced service's history insert (`Ctx.historyWritable`) and payment-column update in `handlePaymentSuccess` (`Ctx.paymentWritable`), the increment's success, and the analysis call's error.
- The other database failures are left out; every other update is modelled as succeeding. On the enhanced service these are the failed updates that throw: `cancelSubscription` (enhancedSubscriptionService.ts line 153), `downgradeToFree` (line 198, also reached through the status read), `reactivateSubscription` (line 223) and `upgradeSubscription` (line 422, also reached through `handlePaymentSuccess`). On the basic service they are the failed reads and updates of `upgradeToPro` and `cancelProSubscription`.
- `getUser` failures on the return page are not modelled; the signed-in user is an input.
- The calendar month after today is an input day number. `toISOString` and `toFixed` formatting are not modelled. Neither are the history list's dates.
- Percent-decoding of query values is not modelled. The address lemmas need session ids, plans and user ids without `%`, `+`, `&` or `#`.
- The endpoint's simulation fallback (`mode=fallback`, api/create-payment-session.js lines 79-91) is not modelled. It is reached when `encodeURIComponent` throws, which it does on a lone surrogate. A request body whose `plan` is `"\uD800"` parses to one, and `plan` is passed raw into the success address. `userId` only reaches `encodeURIComponent` through `JSON.stringify`, which escapes lone surrogates. A Dafny string holds only Unicode scalar values, so it cannot carry such a plan.
- The return page's `fallback` branch is modelled. Only the endpoint's fallback address above leads to it, and that address is not modelled.
- `Math.random` is a parameter: the verdict draw, the score jitter and the session-id suffix.
- The tensor pixel statistics are an input record (`Stats`): the mean, the variance and the gradient.
- The gradient statistic `Stats.gradient` is a free input, which is more general than the source. In the source it is fixed: footAnalysisAI.ts lines 233-234 take the gradient of a sum of the input's channel 0 with respect to the input, which is 1 on every pixel of that channel, so its magnitude is the square root of the pixel count (224 for the 224 x 224 image of line 59). The nails bonus (`gradient < 0.1`) therefore never applies and the shape bonus (`gradient > 0.05`) always does; the source probably meant an image gradient.
- `JSON.parse` and the score regular expression are not modelled. The parsed object and the scraped (name, score) pairs are inputs.
- AnalysisResult.ParseAIResponse: an answer with no `{...}` that parses to `null` makes the source throw 'Failed to process AI analysis results' (realFootAnalysisAI.ts lines 186-237) when it reads a field of `null`; the model's parsed input is always an object, so it always returns a record.
- NaN scores are not modelled; every number is a real.
- Strings.ToLowerFolds: `Strings.ToLower` folds only the characters whose lower-case form contains an ASCII letter (A-Z, U+212A, U+0130); other letters keep their case. Every text it is matched against (the tip keys, "not a foot", "symmetry", "cleanliness") is ASCII, and every other non-ASCII character lower-cases to a single non-ASCII character, so no match is won or lost.
- AnalysisResult.ExtractTips: matches keys on `Strings.ToLower`, so it shares that line's limit; the outcome of every match is as in JavaScript.
- AnalysisResult.TipGivenIffMentioned: `Mentions` lower-cases with `Strings.ToLower`, so the same limit applies and the same argument covers it.
- AnalysisResult.ScrapedKeys: keeps every name in first-appearance order, while a JavaScript object lists integer-like names (a match such as "2") first in numeric order; the keys only feed the mean, which the order does not change.
- AnalysisResult.FromText: a match named `__proto__` sets the object's prototype in JavaScript instead of adding a category; the model counts it as a category.
- EnhancedSubscription.HandlePaymentSuccess: the final removal of the `dodo_pending_payment` browser-storage key (enhancedSubscriptionService.ts line 474) is not modelled; this service's model keeps no browser storage.
- EnhancedSubscription.FreshRecord: usage 0 is the `analyses_used_this_month` column default. The insert does not write that column and the schema is not part of this model.
- DodoPaymentWebhook.CheckoutCompleted: the upsert names no conflict column and no `id`, so it inserts. The table holds one row per user, so an insert for a user who already has a row is modelled as failing, as `SubscriptionService.CreateFreeSubscription` does. Without a unique `user_id` the source would add a second row, which a map cannot hold.
- Canvas drawing, gradients and `measureText` are not modelled; text width is an arbitrary function per font (the verdict's bold 28px and the badge's bold 24px).
- ShareCard.Fit: requires a photo of positive size; a zero-sized image divides by zero in the source.
- Webhook signature verification is not modelled, because the source never performs it.
- Pages and components that only present are left out: the landing, auth, password-reset, upgrade-prompt, share-button, particle, watermark-overlay and profile components, the cancelled page, and the entry point.
- The upgrade panel's button calls `initiateDodoPayment`, which is modelled.
- The enhanced service's profile, password-reset, e-mail, history-read and checkout helpers are left out, as is its RPC-only `incrementUsage`. They are outside the ledger logic.
- `src/lib/socialSharing.ts`, the operational scripts and the debug endpoint are not part of this model.
- The emoji in the meme table are written as the code points the source's broken text encoding evidently stood for.
- MemeVerdicts.GetMemeVerdict: drops the `|| verdictsByScore[1]` fallback. For a real score the key is always 1..10, so it cannot fire; it fires for a NaN score, because `Math.round(NaN)` is NaN and so is the clamped key (memeVerdicts.ts lines 92-94), and NaN is left out.

## Findings

| source | as written | input that shows it | evidently intended | confidence | as-written member | corrected member |
|---|---|---|---|---|---|---|
| src/components/DetailedAnalysisDisplay.tsx:196 | the Symmetry row of the breakdown prints `breakdown.footShape.feedback` under the symmetry score | any analysis whose symmetry feedback differs from its foot-shape feedback, e.g. "Slight asymmetry" vs "Normal arch" | the row prints `breakdown.symmetry.feedback`, as every other row prints its own category's feedback | high; not executed | DetailedAnalysisDisplay.SymmetryRowShowsShapeFeedback | DetailedAnalysisDisplay.Breakdown |

`DetailedAnalysisDisplay.Render` draws the rows as written. `RenderedRowsDifferOnlyInSymmetryFeedback` states how they differ from the corrected `Breakdown`.

# Managed BMI server — a verified model of its core logic

The application is a BMI calculator sold as a subscription. A React front end
calculates BMI and shows the signed-in user's plan and API usage. Four
serverless functions keep a hosted database of `profiles`, `payments` and
`api_requests` in line with two payment providers:

- `create-checkout` opens a Razorpay order, or downgrades the caller to free;
- `razorpay-webhook` marks orders paid, upgrades users and handles cancellations;
- `stripe-webhook` records subscriptions, updates their status and handles deletions;
- `check-subscription` reports the plan and this month's usage, and downgrades
  lazily when Stripe says the subscription has lapsed.

This project models that logic in Dafny and proves what it promises:

- the four handlers;
- the API usage tracker;
- the derivation of the client's `UserProfile`;
- the mock session provider the pages use;
- the calculator's state and classification;
- the navbar's initials.

The database is the class `Store.Store`. It has one field per table and a
counter for generated row ids, and each handler is a method that modifies it.
The conditional updates the handlers issue are pure functions in `Tables`:

- `update … .eq("id", …)` is `UpdatePlan`;
- `update … .eq("stripe_payment_id", …)` is `MarkOrderPaid`;
- `update … .eq("stripe_subscription_id", …).eq("user_id", …)` is `SetSubscriptionStatus`.

The queries are pure functions too. `LatestActive` is the newest `status =
"active"` row, and `RequestsInWindow` is the `created_at >= since` filter.
Stateful client pieces are classes whose fields are their React state:
`MockAuth.AuthProvider` (with local storage as a map) and
`BmiCalc.BmiCalculator`.

Everything outside the process is a parameter:

- the authenticated user;
- the Razorpay orders API answers;
- the Stripe `constructEvent`, `customers.retrieve` and `subscriptions.retrieve` calls;
- the HMAC digest;
- JSON parsing of webhook bodies;
- whether a store call fails;
- the clock, as integer milliseconds;
- the calendar boundaries: one month later, the start of the month, thirty days ago.

The Razorpay webhook writes `valid_until` on the payments it marks paid
(razorpay-webhook/index.ts:65-67), but `check-subscription` never reads it.
It selects only rows whose status is `"active"`
(check-subscription/index.ts:52). Razorpay's `"paid"` rows therefore never
lead to a downgrade, whatever their expiry.
`CheckSubscription.NoActiveRowNoDowngrade` and
`Tables.MarkOrderPaidAddsNoActiveRow` state this.

The server and the client also use different quotas:

- `check-subscription` reports a calendar-month count against 100 for free
  users and no limit for premium;
- `fetchProfile` reports a 30-day count against 10 (free) or 25 (premium).

Both are modelled as written; `AuthService.FetchProfileAgreesWithQuotaCheck`
relates the client profile to `hasExceededApiLimit`.

Files, one module each: `common.dfy`, `tables.dfy`, `store.dfy`,
`create_checkout.dfy`, `razorpay_webhook.dfy`, `stripe_webhook.dfy`,
`check_subscription.dfy`, `api_limit.dfy`, `auth_service.dfy`,
`mock_auth.dfy`, `bmi_calculator.dfy`, `navbar.dfy`.

## Model

| member | source | states |
|---|---|---|
| Common.Reply.Status | supabase/functions/create-checkout/index.ts:123-137 | a handler answers 200 exactly on success and 400 exactly on failure; every handler's contract states that a 400 answer leaves the database unchanged |
| Common.OrElse | supabase/functions/create-checkout/index.ts:65 | `profiles?.name or user.email` on optional strings: the first when it is present and non-empty, otherwise the second |
| Common.Take | src/components/layout/Navbar.tsx:43 | `substring(0, n)`: the prefix of length min(n, length) |
| Common.Decimal | src/context/AuthContext.tsx:80 | `toString()` of a natural number: the canonical decimal numeral, a non-empty string of digits that denotes it, with no leading zero, and "0" for zero |
| Tables.UpdatePlan | supabase/functions/razorpay-webhook/index.ts:72-78 | setting a profile's plan by id: same keys, that row's plan (and `updated_at` if written) set, every other row unchanged, a missing id changes nothing |
| Tables.UpdatePlanKeepsKeying | src/integrations/supabase/types.ts:102-128 | the plan update keeps every profile keyed by its own id |
| Tables.UpdatePlanTwice | supabase/functions/razorpay-webhook/index.ts:72-78 | writing the same plan twice equals writing it once with the second timestamp |
| Tables.MarkOrderPaid | supabase/functions/razorpay-webhook/index.ts:62-69 | every row whose `stripe_payment_id` is the order id becomes "paid", re-keyed by the payment id and given `valid_until`; every other row is unchanged; no row is added or removed |
| Tables.MarkOrderPaidConsumesOrder | supabase/functions/razorpay-webhook/index.ts:62-69 | when the payment id differs from the order id, no row matches the order id afterwards |
| Tables.MarkOrderPaidNoMatch | supabase/functions/razorpay-webhook/index.ts:62-69 | with no row keyed by the order id the update leaves the table as it was |
| Tables.MarkOrderPaidIdempotent | supabase/functions/razorpay-webhook/index.ts:62-69 | applying the update twice with the same `valid_until` equals applying it once, for any order and payment ids |
| Tables.MarkOrderPaidReplay | supabase/functions/razorpay-webhook/index.ts:57-69 | replaying the update, with any later `valid_until`, leaves the table as the first delivery left it |
| Tables.MarkOrderPaidAddsNoActiveRow | supabase/functions/razorpay-webhook/index.ts:65 | every row with status "active" after the Razorpay update was left untouched by it |
| Tables.SetSubscriptionStatus | supabase/functions/stripe-webhook/index.ts:89-97 | rows matching both the subscription id and the user id get the status; all others are unchanged; no row is added or removed |
| Tables.SetSubscriptionStatusLastWins | supabase/functions/stripe-webhook/index.ts:89-97 | of two successive status updates only the second one shows |
| Tables.LatestActive | supabase/functions/check-subscription/index.ts:48-56 | none exactly when the user has no "active" row; otherwise an active row of the user with the greatest `created_at` |
| Tables.RequestsInWindow | src/utils/api-limit.ts:43-47 | the user's request rows created at or after the window start, and only those |
| Tables.RequestsInWindowCount | src/utils/api-limit.ts:43-54 | the filter has as many rows as the table has positions of the user's rows in the window: the query's `count` |
| Tables.RequestsInWindowAppend | src/utils/api-limit.ts:12-17 | an appended row joins the window exactly when it is the user's and inside it |
| Tables.RequestsInWindowGrow | src/utils/api-limit.ts:12-17 | appending rows that are all in the window raises the count by their number |
| Tables.RequestsInWindowShrinks | src/utils/api-limit.ts:40-47 | a window that starts later holds no more requests |
| Store.Store.constructor | src/integrations/supabase/types.ts:12-128 | an empty payments and requests store over given profiles, satisfying the store invariant |
| Store.Store.InsertPayment | supabase/functions/create-checkout/index.ts:99-108 | appends the row with a fresh id, keeps every earlier row, leaves the other tables unchanged |
| Store.Store.InsertApiRequest | src/utils/api-limit.ts:12-17 | appends the row with a fresh id, leaves the other tables unchanged |
| Store.Store.SetPlan | supabase/functions/create-checkout/index.ts:40-43 | the profiles table becomes the plan update; the invariant is kept |
| Store.Store.MarkPaid | supabase/functions/razorpay-webhook/index.ts:62-69 | the payments table becomes the order update; rows keep their ids, owners and creation times |
| Store.Store.SetStatus | supabase/functions/stripe-webhook/index.ts:90-97 | the payments table becomes the status update; rows keep their ids, owners and creation times |
| CreateCheckout.ValidPlan | supabase/functions/create-checkout/index.ts:19-21 | a plan passes exactly when it is "premium" or "free"; a passing plan is truthy, so a missing or empty plan is refused |
| CreateCheckout.CheckoutUrl | supabase/functions/create-checkout/index.ts:121 | the origin (or "null" without one), then "/checkout?order_id=", then the order id |
| CreateCheckout.OrderRequestFor | supabase/functions/create-checkout/index.ts:80-88 | the order asks for 120000 paisa in INR, carries the caller's id and plan "premium", and its receipt is "receipt_order_" followed by the canonical decimal of the clock reading |
| CreateCheckout.ProviderErrorMessage | supabase/functions/create-checkout/index.ts:91-94 | "Razorpay API error: " followed by the provider's description, or "Unknown error" without one |
| CreateCheckout.PrefillName | supabase/functions/create-checkout/index.ts:58-65 | the profile's name when it exists and is non-empty, otherwise the caller's email |
| CreateCheckout.Handle | supabase/functions/create-checkout/index.ts:16-138 | an unknown plan fails before the user is looked at; no user fails; both leave the store unchanged. "free" downgrades the profile, places no order and adds no payment. "premium" places the 1200-rupee order; a refused or failed call leaves the store unchanged; a created order appends exactly one "created" payment row keyed by the order id and answers with the order's id, amount, currency, prefill and URL. Any 400 answer leaves the store unchanged |
| RazorpayWebhook.VerifyWebhookSignature | supabase/functions/razorpay-webhook/index.ts:8-15 | the signature is accepted exactly when it equals the HMAC of the raw body |
| RazorpayWebhook.Handle | supabase/functions/razorpay-webhook/index.ts:17-103 | a missing or wrong signature fails before parsing with no change. `payment.authorized` without a notes user fails with no change, and with one marks the order paid and makes the user premium. `subscription.cancelled` downgrades the notes user if there is one. Other events are acknowledged with no change. Any 400 answer leaves the store unchanged |
| RazorpayWebhook.PaymentAuthorizedReplay | supabase/functions/razorpay-webhook/index.ts:57-78 | a second delivery of the same `payment.authorized` leaves the payments as the first left them and the user premium |
| RazorpayWebhook.PaymentAuthorizedIdempotent | supabase/functions/razorpay-webhook/index.ts:57-78 | redelivery at the same instant reproduces the same tables, for any order and payment ids |
| StripeWebhook.SubscriptionPayment | supabase/functions/stripe-webhook/index.ts:52-62 | a premium row with the provider status, customer, amount and currency and no `valid_until`, which later status updates for its subscription and user reach and no Razorpay order update does |
| StripeWebhook.Handle | supabase/functions/stripe-webhook/index.ts:10-142 | a failed signature check fails with no change. A checkout session with a customer user, subscription mode and a subscription appends one premium row with the provider status, amount and currency and upgrades the user; otherwise nothing changes. An invoice sets the provider status on the user's rows of that subscription and leaves profiles alone. A deletion cancels those rows and downgrades the user. Payment history is kept, and other events change nothing. Any 400 answer leaves the store unchanged |
| StripeWebhook.InvoiceAfterDeletionOverwritesCanceled | supabase/functions/stripe-webhook/index.ts:76-120 | a late invoice after a deletion overwrites the "canceled" status of the rows |
| CheckSubscription.ReportedPlan | supabase/functions/check-subscription/index.ts:97 | the stored plan when the profile has a non-empty one, otherwise "free" |
| CheckSubscription.ReportedLimit | supabase/functions/check-subscription/index.ts:93 | no limit exactly for a premium profile, otherwise 100 |
| CheckSubscription.MonthlyUsage | supabase/functions/check-subscription/index.ts:86-92 | the number of the user's request rows created at or after the start of the month |
| CheckSubscription.ReportedLimitMatchesPlan | supabase/functions/check-subscription/index.ts:93-97 | the limit is null exactly when the reported plan is premium, and 100 otherwise |
| CheckSubscription.SubscriptionToCheck | supabase/functions/check-subscription/index.ts:46-58 | a subscription is checked exactly when the profile is premium and the user's newest "active" row has a non-empty subscription id, and it is that row's id |
| CheckSubscription.Handle | supabase/functions/check-subscription/index.ts:17-116 | no user fails with no change. A thrown lookup fails with no change. A lapsed subscription (neither active nor trialing) downgrades the profile and reports free with usage 0 of 100. Otherwise nothing is written and the plan, this month's count and the limit are reported. Any 400 answer leaves the store unchanged |
| CheckSubscription.NoActiveRowNoDowngrade | supabase/functions/check-subscription/index.ts:48-64 | without an "active" payment row nothing is checked and no downgrade happens, whatever `valid_until` says |
| CheckSubscription.NotPremiumNoDowngrade | supabase/functions/check-subscription/index.ts:46 | a profile that is not premium is never downgraded |
| CheckSubscription.RazorpayUpdateNotChecked | supabase/functions/check-subscription/index.ts:48-56 | the row checked after a Razorpay `payment.authorized` update is one that update left untouched |
| ApiLimit.TrackApiRequest | src/utils/api-limit.ts:10-29 | returns true exactly when the store call succeeds; then exactly one row with the user and type is appended, else the store is unchanged |
| ApiLimit.HasExceededApiLimit | src/utils/api-limit.ts:37-58 | exceeded when the read fails; otherwise exactly when the number of the user's rows created at or after the window start reaches the limit |
| ApiLimit.ReadErrorIsExceeded | src/utils/api-limit.ts:49-58 | a read error reports the limit as exceeded |
| ApiLimit.FreshUserWithinLimit | src/utils/api-limit.ts:54 | a user with no request in the window is exceeded exactly when the limit is at most 0 |
| ApiLimit.TrackingKeepsExceeded | src/utils/api-limit.ts:10-24 | tracking a request never turns exceeded back into not exceeded |
| ApiLimit.ExceededOnceLimitTracked | src/utils/api-limit.ts:37-58 | starting with none in the window, the quota is reached exactly when `limit` requests have been tracked in it |
| ApiLimit.OtherUsersDoNotCount | src/utils/api-limit.ts:46 | another user's request does not change the answer |
| AuthService.NormalizePlan | src/context/auth/auth-service.ts:36 | premium exactly when the stored plan is "premium", free for every other value |
| AuthService.ApiLimitFor | src/context/auth/auth-service.ts:33 | 25 for premium and 10 otherwise |
| AuthService.FetchProfile | src/context/auth/auth-service.ts:8-52 | none exactly when the profile query fails or finds no row, or when the usage query throws into the `catch`. Otherwise id, email and name are copied, the plan is normalised and the limit is per plan. `used` is the 30-day count, or 0 when that query returns an error |
| AuthService.FetchProfileAgreesWithQuotaCheck | src/context/auth/auth-service.ts:22-45 | the profile shows `used >= limit` exactly when `hasExceededApiLimit` with that limit and the same window says exceeded |
| AuthService.UsageErrorKeepsProfile | src/context/auth/auth-service.ts:28-45 | a usage query that returns an error only zeroes `used`; whether a profile comes back does not change |
| MockAuth.LoginUser | src/context/AuthContext.tsx:56-65 | user "1" with the given email, plan free and usage 32 of 100, named by the email's text before its first '@' (all of it when there is none) |
| MockAuth.RegisteredUser | src/context/AuthContext.tsx:79-88 | a user whose id is the canonical decimal of the clock reading (digits denoting it, no leading zero, "0" at zero), with the given name and email, plan free and usage 0 of 100 |
| MockAuth.BeforeFirstAt | src/context/AuthContext.tsx:59 | `split('@')[0]`: the longest prefix without '@', ending at the end or at the first '@' |
| MockAuth.LoginNameIsLocalPart | src/context/AuthContext.tsx:59 | for an address with one '@' the login name is the local part |
| MockAuth.AuthProvider.constructor | src/context/AuthContext.tsx:39-46 | the user is the stored "user" entry if present, otherwise none; loading ends |
| MockAuth.AuthProvider.IsAuthenticated | src/context/AuthContext.tsx:104 | while memory and storage agree, authenticated exactly when a user is stored |
| MockAuth.AuthProvider.Login | src/context/AuthContext.tsx:48-70 | the user becomes the free user "1" with the given email, the name before '@' and usage 32 of 100; it is stored under "user" and is the in-memory user |
| MockAuth.AuthProvider.Register | src/context/AuthContext.tsx:72-93 | the user becomes the free user with the clock as id, the given name and email and usage 0 of 100; it is stored and in memory |
| MockAuth.AuthProvider.Logout | src/context/AuthContext.tsx:95-98 | the stored entry is removed and the user is none, so not authenticated |
| BmiCalc.Categorize | src/components/calculator/BmiCalculator.tsx:54-66 | the four categories partition the reals at 18.5, 25 and 30, each band including its lower bound |
| BmiCalc.CategorizeMonotone | src/components/calculator/BmiCalculator.tsx:54-66 | a larger BMI never gets an earlier category |
| BmiCalc.CategoryBoundaries | src/components/calculator/BmiCalculator.tsx:54-66 | 18.4/18.5, 24.9/25.0 and 29.9/30.0 fall on either side of the band edges |
| BmiCalc.Classify | src/components/calculator/BmiCalculator.tsx:49-70 | the result keeps the value and pairs the category's label with its colour: blue, green, yellow or red |
| BmiCalc.HeightInInches | src/components/calculator/BmiCalculator.tsx:45 | imperial height in inches counts twelve inches to the foot |
| BmiCalc.BmiCalculator.constructor | src/components/calculator/BmiCalculator.tsx:24-30 | metric, every input empty, no result |
| BmiCalc.BmiCalculator.CalculateDisabled | src/components/calculator/BmiCalculator.tsx:198-201 | the Calculate button is disabled exactly when `calculateBmi`'s guard fails |
| BmiCalc.BmiCalculator.ResetDisabled | src/components/calculator/BmiCalculator.tsx:189-192 | Reset is disabled exactly when every input of the active system is empty, and then Calculate is disabled too |
| BmiCalc.BmiCalculator.CalculateBmi | src/components/calculator/BmiCalculator.tsx:34-73 | with an active input empty the result is unchanged. Otherwise the result is the classified BMI of the metric inputs, or of feet×12+inches and pounds. The inputs are never changed |
| BmiCalc.BmiCalculator.ResetCalculator | src/components/calculator/BmiCalculator.tsx:75-85 | clears the active system's inputs and the result, keeps the other system's inputs, and leaves Reset disabled |
| BmiCalc.BmiCalculator.SelectSystem | src/components/calculator/BmiCalculator.tsx:87-89 | switching systems resets the newly active one and keeps the other's inputs; reselecting the same system changes nothing |
| BmiCalc.BmiCalculator.Enter | src/components/calculator/BmiCalculator.tsx:127-171 | typing into an input sets that input only |
| Navbar.Split | src/components/layout/Navbar.tsx:39 | `split(' ')`: at least one piece and no piece contains a space |
| Navbar.FirstChars | src/components/layout/Navbar.tsx:40-41 | at most one character per piece, and exactly each piece's first character when no piece is empty |
| Navbar.JoinSplit | src/components/layout/Navbar.tsx:39 | joining the pieces with a space gives back the string |
| Navbar.FirstCharsOfSplit | src/components/layout/Navbar.tsx:38-41 | the pieces' first characters, empty pieces contributing nothing, are exactly the string's word starts |
| Navbar.ToUpper | src/components/layout/Navbar.tsx:42 | same length, each character upper-cased |
| Navbar.GetInitials | src/components/layout/Navbar.tsx:37-44 | at most two characters: the first two upper-cased word starts of the name |
| Navbar.AvatarText | src/components/layout/Navbar.tsx:102 | "U" without a non-empty name, otherwise the initials |
| Navbar.StartsAcrossSpace | src/components/layout/Navbar.tsx:39-41 | a space separates the word starts of what precedes it from those of what follows |
| Navbar.OneWordStarts | src/components/layout/Navbar.tsx:38-41 | a word without spaces has exactly one start |
| Navbar.SingleWordInitial | src/components/layout/Navbar.tsx:37-44 | a one-word name gives exactly its upper-cased first letter |
| Navbar.TwoWordInitials | src/components/layout/Navbar.tsx:37-44 | "first last" gives the two upper-cased first letters |
| Navbar.ThirdWordIgnored | src/components/layout/Navbar.tsx:43 | words after the second never show |
| Navbar.SpacesIgnored | src/components/layout/Navbar.tsx:39-41 | leading, trailing and repeated spaces change nothing |
| Navbar.TrailingSpaceAddsNothing | src/components/layout/Navbar.tsx:39-41 | a trailing space adds no word start |
| Navbar.SpacesHaveNoStarts | src/components/layout/Navbar.tsx:39-41 | a string of spaces has no word start |
| Navbar.BlankNameShowsNothing | src/components/layout/Navbar.tsx:102 | a name of spaces only counts as present, yet the avatar is empty rather than "U" |

## Left out

- HTTP serving, CORS preflight responses, headers and environment variables are not modelled. Each handler starts from the values it reads: plan, user, origin, signature, body.
- JSON parsing is a parameter for webhook bodies and is not modelled for `create-checkout`. A malformed checkout body, which throws and answers 400, has no counterpart.
- The HMAC-SHA256 digest is the uninterpreted parameter `hmacHex`; only the equality test is modelled.
- Calendar arithmetic is passed in as values: one month later (`validUntil`), the start of the current month (`monthStart`) and thirty days back (`windowStart`). `fetchProfile` subtracts 30×24 h from the clock itself. The two thirty-day windows can therefore differ across a daylight-saving change.
- The BMI formula and its `toFixed(1)` rounding are the parameter `bmiOf`, and `Number(...)` is the parameter `number`. Only the classification of the rounded value is modelled, over the reals rather than IEEE floats.
- The 300 ms result animation, the `isAnimating` and `showInfo` flags, and the mock provider's one-second delays are not modelled. Every update is applied immediately.
- The JSON encoding of the stored mock user is not modelled. Local storage holds user records.
- Store read and write errors are modelled only where the code observes them: `trackApiRequest`, `hasExceededApiLimit` and `fetchProfile`. The handlers ignore the result of their writes, and a failed write there is not modelled. A failed read inside a handler is not modelled either. In `check-subscription` such a read yields no data rather than an error. A failed profile read still answers, with plan "free" and limit 100, and skips the Stripe check, because `profile?.plan` is then undefined (check-subscription/index.ts:34-38, 46, 93, 97). A failed payments read also skips the check, because `payments?.[0]` is undefined (check-subscription/index.ts:48-58).
- The `count || 0` fallback of `check-subscription` is not modelled: the count is always read successfully.
- The `updated_at` column the Stripe handler writes on `payments` does not exist in the schema and is not modelled.
- Tables.LatestActive: the database's order among payments with equal `created_at` is unspecified; the model picks the row inserted last.
- Navbar.ToUpper: only the ASCII letters a–z are upper-cased and every other character is kept, while `toUpperCase` applies full Unicode case mapping (which can also change a string's length).
- Navbar.GetInitials: `toUpperCase` is modelled only on the ASCII letters a–z. Other characters are kept as they are, which is weaker than full Unicode case mapping.
- Navbar.GetInitials: JavaScript strings are UTF-16 code units, so for a word starting outside the Basic Multilingual Plane `part[0]` and `substring(0, 2)` take half of a surrogate pair. The model's characters are whole Unicode scalar values and never split one.
- CheckSubscription.Handle: the downgrade reply also carries `subscription: null`, which the `Report` value has no field for.
- CreateCheckout.Handle and CheckSubscription.Handle: a request without an Authorization header makes `authHeader.replace` throw a TypeError, whose message becomes the 400 body. The model treats it as an unauthenticated user and answers "User not authenticated".
- BmiCalc.BmiCalculator.CalculateBmi: a height of "0" makes the BMI Infinity or NaN. The if-chain classifies both as "Obesity", because no comparison with NaN holds. The reals have no such values, so `bmiOf` always yields a real number.
- Concurrent deliveries and handler interleavings are not modelled. Each handler runs as one atomic step.
- `src/context/auth/AuthContext.tsx` (the session-listener provider), the `authService` login, registration and logout wrappers, and `src/services/payment-service.ts` are not part of this model. They are thin calls into the identity provider and the function endpoints.
- The pages, the dashboard, the forms, the footer and the card and script components are presentation and are not part of this model. This includes the dashboard's usage percentage.

# capitalizeai core, modelled in Dafny

capitalizeai is a multi-tenant credit-scoring service. Organizations submit
scoring requests about mobile-money subjects, receive a score with a risk
category, pay per request, and integrate through API keys. This project
models the parts of it that compute or decide something:

- **Dashboard statistics** (`Analytics`). The average score, the five fixed
  score buckets, the risk breakdown with rounded percentages, the total
  amount scored, the default rate, the scorings of the current month and
  the recent-activity feed, all computed over the rows the store returned.
- **Billing usage summary** (`Usage`). The loop that counts billing events,
  adds up their prices and totals the quantity per event type.
- **Transaction statistics** (`Transactions`). Sent and received totals,
  the rounded average amount and the distinct counterparties.
- **API keys** (`ApiKeys`). Deriving a key (`cap_` plus 64 hex digits), its
  15-character display prefix and its hash; the key table as a class whose
  create and deactivate operations change it; the POST and DELETE handlers.
- **Organizations** (`Organizations`). Name validation and the slug
  pipeline (ASCII lower-casing, collapsing runs of other characters to one
  hyphen, stripping one edge hyphen at each end, truncating to 50), and the
  POST handler.
- **Scoring** (`Scoring`). The placeholder engine's integer outputs (the
  score, the risk category by threshold, the recommended term and the
  maximum amount). The POST handler is modelled as a store class. It
  validates the input, then inserts the request, completes it, inserts the
  score and records a 500 FCFA billing event, in that order. A ghost log
  records that order.
- **Profile update** (`Profile`). The whitelist loop that builds the update
  map with a forced e-mail, and the upsert into the caller's own row.

`Common` holds the shared pieces. These are JavaScript truthiness for
optional strings (`Truthy`, `OrElse` for `a || b`, `TruthyOrNull` for
`a || null`), used by the operations below rather than modelling any of their own, and `RoundDiv`, which is `Math.round(a / b)` computed exactly on
integers. `Records` holds the enumerations of the row types.

Everything the handlers get from outside is a parameter. That covers:

- the authenticated user;
- the request body fields, each a string (or a list of strings for `scopes`), with `None` for an absent value; non-string values and malformed bodies are listed under "## Left out";
- the random bytes and the random score draw;
- the SHA-256 digest, as a function `string -> string`;
- the id the store assigns to a new row;
- the elapsed time and the current month;
- whether each store write succeeds.

## Model

| member | source | states |
|---|---|---|
| `Common.RoundDiv` | src/lib/supabase/db.ts:371-374 | `Math.round(a / b)` for b > 0 is the integer r with r - 1/2 <= a/b < r + 1/2 |
| `Common.RoundDivUnique` | src/lib/supabase/db.ts:373 | that integer is unique: any r meeting the half-open rounding bounds is the result |
| `Common.RoundDivWithin` | src/lib/supabase/db.ts:373 | the rounded mean of n values lying in [lo, hi] lies in [lo, hi] |
| `Analytics.CountInRange` | src/lib/supabase/db.ts:382 | the number of scores with lo <= v <= hi never exceeds the number of rows |
| `Analytics.CountCategory` | src/lib/supabase/db.ts:395 | the number of rows with a given category never exceeds the number of rows |
| `Analytics.CountUncategorised` | src/lib/supabase/db.ts:394-395 | rows with a null category, which no breakdown entry counts, are at most all rows |
| `Analytics.CountHighRisk` | src/lib/supabase/db.ts:410-412 | the high-or-very-high count is at most the number of rows |
| `Analytics.CountInMonth` | src/lib/supabase/db.ts:427-431 | `scorings_this_month` counts rows of the given (month, year) and is at most `total_scorings` |
| `Analytics.AverageScore` | src/lib/supabase/db.ts:371-374 | 0 with no rows, otherwise the sum of the scores divided by their number, rounded half up |
| `Analytics.Percentage` | src/lib/supabase/db.ts:399 | `round(100 * count / n)` lies in 0..100, is 0 when n = 0 and is within one half of the exact ratio |
| `Analytics.DefaultRate` | src/lib/supabase/db.ts:410-413 | `default_rate` lies in 0..100 and is 0 with no rows |
| `Analytics.RecentActivity` | src/lib/supabase/db.ts:416-422 | one item per recent request, in the same order, with type scoring, title `Scoring: ` plus the name or `Anonyme`, description `Statut: ` plus the status, and the request's id and timestamp |
| `Analytics.ComputeStats` | src/lib/supabase/db.ts:370-438 | `total_scorings` is the number of rows, this month's count is at most that, the trend is 0, the default rate is in 0..100, five buckets and five categories, one activity item per request, all zeros with no rows |
| `Analytics.GetDashboardStats` | src/lib/supabase/db.ts:370-422 | a failed score query reads as no scores, a failed request query as no activity |
| `Analytics.BucketsPartitionScoreDomain` | src/lib/supabase/db.ts:377-384 | every integer score in 0..1000 lies in one bucket, and no two buckets overlap |
| `Analytics.FiveBucketsCoverDomain` | src/lib/supabase/db.ts:377-384 | for scores in 0..1000 the five bucket counts add up to the number of rows |
| `Analytics.DistributionPartitionsRows` | src/lib/supabase/db.ts:377-384 | the distribution has the five ranges "0-200" .. "801-1000" in order, and its counts sum to `total_scorings` when the scores lie in 0..1000 |
| `Analytics.SumScoresBounds` | src/lib/supabase/db.ts:373 | the sum of n scores in [lo, hi] lies in [n*lo, n*hi] |
| `Analytics.AverageWithinScoreBounds` | src/lib/supabase/db.ts:371-374 | `avg_score` lies between the smallest and the largest score |
| `Analytics.TotalAmountAppend` | src/lib/supabase/db.ts:404-407 | `total_amount_scored` of two batches of rows is the sum of their totals, whatever the split |
| `Analytics.TotalAmountBounds` | src/lib/supabase/db.ts:404-407 | with a missing amount counted as 0, n amounts in [lo, hi] total between n*lo and n*hi |
| `Analytics.CategoriesAccountForEveryRow` | src/lib/supabase/db.ts:387-395 | the five category counts plus the null-category rows make up every row |
| `Analytics.RiskBreakdownShape` | src/lib/supabase/db.ts:387-401 | five entries in the fixed category order, each with the number of rows of its category and that count's rounded percentage of all rows, which lies in 0..100 and is 0 with no rows |
| `Analytics.BreakdownCountsAccountForEveryRow` | src/lib/supabase/db.ts:387-401 | the breakdown's counts plus the rows of null category add up to the number of rows |
| `Analytics.HighRiskIsHighPlusVeryHigh` | src/lib/supabase/db.ts:410-412 | the default-rate count is the high count plus the very-high count |
| `Analytics.DefaultRateFromBreakdown` | src/lib/supabase/db.ts:395-413 | the default rate is the rounded percentage of the breakdown's high and very-high counts together |
| `Analytics.EmptyDashboard` | src/lib/supabase/db.ts:370-438 | with no rows: all numbers 0, five empty buckets, five categories at 0 % and no activity |
| `Analytics.PercentagesNeedNotSumToHundred` | src/lib/supabase/db.ts:399 | the rounded percentages can sum to 99 (three rows, one each in three categories) |
| `Analytics.DefaultRateExample` | src/lib/supabase/db.ts:410-413 | one high and one very-high row out of four gives a default rate of 50 |
| `Usage.SummarizeUsage` | src/lib/supabase/db.ts:281-289 | `total_events` is the number of rows and `total_cost_fcfa` the sum of the prices; `by_type` has a key exactly for each type that occurs, holding that type's total quantity |
| `Usage.GetUsageSummary` | src/lib/supabase/db.ts:279-289 | a failed query gives zero events, zero cost and no types; otherwise the summary above |
| `Usage.EventTypesAreTheOccurringTypes` | src/lib/supabase/db.ts:284-285 | a type gets a key exactly when some row has that type |
| `Usage.AbsentTypeHasNoQuantity` | src/lib/supabase/db.ts:285 | a type that no row has contributes no quantity |
| `Usage.ByTypePartitionsQuantity` | src/lib/supabase/db.ts:284-287 | summed over every event type, the per-type quantities give the total quantity of all rows |
| `Transactions.Counterparties` | src/lib/supabase/db.ts:340 | there are never more distinct counterparties than rows |
| `Transactions.ComputeTransactionStats` | src/lib/supabase/db.ts:333-348 | the count is the number of rows, the distinct counterparties are at most that, all zero with no rows, and `avg_amount` is the mean rounded half up |
| `Transactions.GetTransactionStats` | src/lib/supabase/db.ts:324-348 | a failed query gives all zeros, otherwise the count is the number of rows |
| `Transactions.CounterpartyMembership` | src/lib/supabase/db.ts:340 | a phone is counted exactly when it is non-empty and some row has it |
| `Transactions.SentReceivedOthersSplitTotal` | src/lib/supabase/db.ts:333-338 | sends, receives and all other rows split the total amount, so neither total counts a row of another type |
| `Transactions.SumAmountsBounds` | src/lib/supabase/db.ts:339 | the sum of n amounts in [lo, hi] lies in [n*lo, n*hi] |
| `Transactions.AverageAmountWithinBounds` | src/lib/supabase/db.ts:339-346 | `avg_amount` lies between the smallest and the largest amount |
| `ApiKeys.HexEncode` | src/app/api/api-keys/route.ts:18 | hex encoding gives two lower-case hex digits per byte |
| `ApiKeys.HexRoundTrip` | src/app/api/api-keys/route.ts:18 | decoding the hex gives the bytes back |
| `ApiKeys.HexEncodeAppend` | src/app/api/api-keys/route.ts:18 | encoding distributes over concatenation |
| `ApiKeys.GenerateApiKey` | src/app/api/api-keys/route.ts:17-22 | the raw key is 68 characters, `cap_` then 64 lower-case hex digits; the prefix is its first 12 characters plus `...` (15 in all, starting `cap_`); the hash is the digest of the raw key |
| `ApiKeys.PrefixShowsFirstFourBytes` | src/app/api/api-keys/route.ts:18-19 | the prefix is `cap_`, the hex of the first four random bytes, and `...` |
| `ApiKeys.PrefixIgnoresLaterBytes` | src/app/api/api-keys/route.ts:19 | the prefix does not depend on the other 28 bytes |
| `ApiKeys.DistinctDrawsGiveDistinctKeys` | src/app/api/api-keys/route.ts:18 | different random bytes give different raw keys |
| `ApiKeys.DeactivateRow` | src/lib/supabase/db.ts:240-248 | the row with that id, if any, becomes inactive with every other field unchanged; every other row is unchanged and no row is added or removed |
| `ApiKeys.DeactivateIdempotent` | src/lib/supabase/db.ts:240-248 | deactivating twice leaves the table as deactivating once |
| `ApiKeys.DeactivateCommutes` | src/lib/supabase/db.ts:240-248 | deactivating two keys in either order gives the same table |
| `ApiKeys.KeyStore.constructor` | src/lib/supabase/db.ts:214-234 | the key table starts empty |
| `ApiKeys.KeyStore.CreateApiKey` | src/lib/supabase/db.ts:214-238 | an accepted insert adds an active, unused row with the given fields, scopes defaulting to read and write scoring; a refused one changes nothing and returns null |
| `ApiKeys.KeyStore.DeactivateApiKey` | src/lib/supabase/db.ts:240-248 | success is the absence of a store error; on success the table is the deactivated table, otherwise unchanged |
| `ApiKeys.KeyStore.Post` | src/app/api/api-keys/route.ts:49-96 | 401 without a user; 400 without `org_id` or `name`; otherwise the stored row holds only the prefix and hash with default scopes, the raw key appears only in the 201 response with the warning, and a refused insert gives 500, no raw key and an unchanged table |
| `ApiKeys.KeyStore.Delete` | src/app/api/api-keys/route.ts:98-128 | 401 without a user; 400 without `key_id`, deactivating nothing; 500 on a store error; otherwise `{id, is_active: false}` and that key deactivated |
| `Organizations.LowerAscii` | src/app/api/organizations/route.ts:46 | each upper-case ASCII letter maps to the lower-case letter at the same place of the alphabet; everything else is unchanged |
| `Organizations.ToLowerAscii` | src/app/api/organizations/route.ts:46 | lower-casing works character by character and keeps the length |
| `Organizations.TrimStart` | src/app/api/organizations/route.ts:37-51 | drops exactly the leading JavaScript whitespace |
| `Organizations.TrimEnd` | src/app/api/organizations/route.ts:37-51 | drops exactly the trailing JavaScript whitespace |
| `Organizations.DropRun` | src/app/api/organizations/route.ts:47 | drops exactly the leading characters outside [a-z0-9] |
| `Organizations.CollapseRuns` | src/app/api/organizations/route.ts:47 | `replace(/[^a-z0-9]+/g, "-")` is empty exactly for the empty string and starts with the first character, or `-` if that is outside [a-z0-9] |
| `Organizations.CollapsedIsSlugShaped` | src/app/api/organizations/route.ts:47 | after collapsing, every character is in [a-z0-9-] and no two hyphens are adjacent |
| `Organizations.CollapseKeepsSlugChars` | src/app/api/organizations/route.ts:47 | collapsing keeps every [a-z0-9] character, in order; only hyphens are added |
| `Organizations.DropRunKeepsSlugChars` | src/app/api/organizations/route.ts:47 | dropping a run loses no [a-z0-9] character |
| `Organizations.CollapseSlugPrefix` | src/app/api/organizations/route.ts:47 | a prefix made of [a-z0-9] characters passes through collapsing unchanged |
| `Organizations.StripEdgeHyphens` | src/app/api/organizations/route.ts:48 | the edge-hyphen `replace` removes one leading and one trailing hyphen, when present, and nothing else |
| `Organizations.StrippedIsSlugShaped` | src/app/api/organizations/route.ts:48 | after stripping, a collapsed string has no hyphen at either end |
| `Organizations.Truncate` | src/app/api/organizations/route.ts:49 | `substring(0, 50)` keeps the first min(50, length) characters |
| `Organizations.Slugify` | src/app/api/organizations/route.ts:45-49 | the slug is at most 50 characters from [a-z0-9-], has no doubled hyphen and no leading hyphen, and has no trailing hyphen unless truncation cut after one |
| `Organizations.JsLength` | src/app/api/organizations/route.ts:37 | a string's JavaScript length counts UTF-16 code units: at least one and at most two per character |
| `Organizations.CreateOrganizationPost` | src/app/api/organizations/route.ts:24-61 | 401 exactly without a user; 400 exactly when the name is absent, not a string or shorter than 2 UTF-16 code units after trimming; otherwise the organization row `{name, slug, type}` is created with the trimmed name, the slug and type defaulting to `imf`, unless the store refuses or the slug is taken (500) |
| `Organizations.LongNameIsValid` | src/app/api/organizations/route.ts:37-42 | a 49-letter word followed by " b" passes validation |
| `Organizations.LongNameCanEndWithHyphen` | src/app/api/organizations/route.ts:45-49 | for that valid name the slug is the word followed by a hyphen: truncation runs after edge stripping, so a trailing hyphen survives |
| `Organizations.AstralNameIsValid` | src/app/api/organizations/route.ts:37-49 | a name of one character outside the Basic Multilingual Plane has length 2, passes validation and gets the empty slug |
| `Organizations.PunctuationNameGivesEmptySlug` | src/app/api/organizations/route.ts:37-49 | the name "!!" passes validation and gets the empty slug |
| `Scoring.RiskForMatchesBands` | src/app/api/scoring/route.ts:29-34 | the threshold chain puts a score in a category exactly when the score lies in that category's band (>= 800, 650..799, 450..649, 300..449, < 300) |
| `Scoring.RiskNonIncreasing` | src/app/api/scoring/route.ts:29-34 | a higher score never gives a riskier category |
| `Scoring.GeneratedScore` | src/app/api/scoring/route.ts:26 | the generated score is an integer in 300..899 |
| `Scoring.GeneratedScoreNeverVeryHigh` | src/app/api/scoring/route.ts:26-34 | a generated score is never classed very high risk |
| `Scoring.TermMonths` | src/app/api/scoring/route.ts:37 | the recommended term is 3, 6 or 12 months |
| `Scoring.TermNonDecreasing` | src/app/api/scoring/route.ts:37 | a higher score never shortens the term |
| `Scoring.MaxAmount` | src/app/api/scoring/route.ts:36 | the maximum amount is a non-negative multiple of 5000 for a non-negative score |
| `Scoring.MaxAmountIncreasing` | src/app/api/scoring/route.ts:36 | a higher score gives at least 5000 FCFA more |
| `Scoring.SimulateScore` | src/app/api/scoring/route.ts:16-56 | the integer fields agree: score 300 + draw, category its band (never very high), amount score × 5000, term 3, 6 or 12 |
| `Scoring.BillingFor` | src/app/api/scoring/route.ts:162-169 | the billing event is one scoring request at 500 FCFA, 500 in total, described as `Scoring: ` plus the name, or else the phone |
| `Scoring.ScoringStore.constructor` | src/lib/supabase/db.ts:122-134 | the tables and the write log start empty |
| `Scoring.ScoringStore.CreateScoringRequest` | src/lib/supabase/db.ts:122-134 | an accepted insert files the request as pending under its id; a refused one changes no table and returns null |
| `Scoring.ScoringStore.CompleteRequest` | src/app/api/scoring/route.ts:142-145 | the request becomes completed with its processing time; a failure changes nothing |
| `Scoring.ScoringStore.InsertScoreRow` | src/app/api/scoring/route.ts:148-159 | an accepted score is appended and returned; a refused one gives null |
| `Scoring.ScoringStore.InsertBillingRow` | src/app/api/scoring/route.ts:162-169 | an accepted billing event is appended |
| `Scoring.ScoringStore.Submit` | src/app/api/scoring/route.ts:112-176 | a refused request insert gives 500 and is the only write; otherwise four writes in order (request, status, score, billing), their failures ignored, with the request stored pending with empty fields as null, data sources momo and airtime and priority defaulting to normal, then completed if the update succeeds; a 201 response with the request marked completed and the score if it was stored; every score belongs to a stored request |
| `Scoring.ScoringStore.Post` | src/app/api/scoring/route.ts:88-178 | 401 without a user, then 400 without `org_id`, then 400 without both phone and name, all before any write; a request passing all three checks always reaches the submission below, whose outcome (500 on a refused request insert, otherwise the completed response) it returns |
| `Profile.PickedKeepsOnlyAllowed` | src/app/api/profile/route.ts:35-49 | the update's e-mail is the user's (or "") whatever the body says; its keys are the allowed fields plus `email`, so never `id`; an allowed key is copied unchanged exactly when the body has it |
| `Profile.PickedKeys` | src/app/api/profile/route.ts:46-49 | for any field list without `email`, the update holds the forced e-mail and exactly the listed fields the body has, with the body's values |
| `Profile.BuildUpdates` | src/app/api/profile/route.ts:46-49 | the loop builds exactly the whitelisted update, field by field in list order |
| `Profile.Upserted` | src/lib/supabase/db.ts:37-50 | the upserted row has the update's values, the caller's id when the update has no `id`, and its other columns unchanged |
| `Profile.UpsertedProfileRow` | src/app/api/profile/route.ts:35-51 | the row PUT writes has the caller's id whatever the body holds, the caller's e-mail, every allowed field of the body with its value, no new column besides those, and every other column as before |
| `Profile.ProfileStore.constructor` | src/lib/supabase/db.ts:37-50 | the profile table starts empty |
| `Profile.ProfileStore.UpsertProfile` | src/lib/supabase/db.ts:37-50 | an accepted upsert writes the merged row under the user's id and returns it; a refused one changes nothing and returns null |
| `Profile.ProfileStore.Put` | src/app/api/profile/route.ts:24-57 | 401 without a user and 500 when the store refuses, both changing nothing; otherwise only the caller's row changes, and it becomes the upsert of the whitelisted update, which is returned |

## Left out

- Store and network I/O: `createClient`, the Supabase queries, `auth.getUser` and `NextResponse`. Query results are inputs (`Option` for a query that can fail), store writes are class methods whose success is a parameter, and responses are datatypes with their status codes.
- `crypto.randomBytes` and SHA-256: the 32 bytes are a parameter and the digest is an uninterpreted function. Whether two keys share a hash therefore depends on that function alone.
- `Math.random`, the probability of default, the interest rate, the component sub-scores and the explanation text of `simulateScore` all use floating point and chance. The integer draw `floor(random * 600)` is a parameter.
- `Date.now()` and `new Date()`: the elapsed milliseconds and the current (month, year) are parameters, and each score row carries its own (month, year) in place of `created_at`. Time zones are not modelled.
- Analytics.Percentage: the source computes `(count / n) * 100` in binary floating point, so a ratio whose exact value ends in .5 can land just below it. For example, 29/200 × 100 evaluates to 14.499999999999998 and rounds to 14 where the exact value rounds to 15. The model rounds the exact ratio.
- Analytics.AverageScore and Transactions.ComputeTransactionStats: the mean is rounded exactly, not through a floating-point quotient, for the same reason. Amounts are integers.
- Organizations.ToLowerAscii: `toLowerCase` is modelled on ASCII letters only; non-ASCII characters are kept as they are. Most of them fall outside [a-z0-9] either way, but a few lower-case into it in JavaScript: U+212A KELVIN SIGN becomes `k`, and U+0130 becomes `i` followed by U+0307. For such names the model's slug differs from the source's: two Kelvin signs give `kk` in the source and the empty slug here.
- Organizations.ValidName: `typeof name !== "string"` and an absent name are both the `None` input.
- The slug pipeline follows the code, which differs from the written description of the service in two ways. A slug can end in a hyphen, because it is truncated to 50 characters after the edge hyphens are stripped (`LongNameCanEndWithHyphen`). A slug can also be empty (`PunctuationNameGivesEmptySlug`).
- `createOrganization` also inserts the caller's owner membership row into `cap_org_members` and ignores that insert's error. That second insert is not modelled, so the model says nothing about who owns the organization; the organization row holds only name, slug and type, and the insert's outcome is `storeOk` plus slug uniqueness.
- Listing API keys (`GET` and `listApiKeys`) selects every column, including `key_hash`. Listing, pagination and the thin read wrappers (`getProfile`, `getOrganization`, `listUserOrgs`, `listScoringRequests`) are not modelled.
- ApiKeys.KeyStore.Delete: like the source, it does not check that the key belongs to one of the caller's organizations, so no such property is stated.
- The `startDate` filter of the usage summary is a query parameter and is not modelled. Rows arrive already filtered.
- Scoring.ScoringStore.Post: request fields the model does not use (`input_data`, `metadata`, `error_message`, `api_key_used`) and score fields that are floats or random (`probability_of_default`, `recommended_interest_rate`, `components`, `confidence`, `shap_explanation`) are not stored. The request's initial status `pending` is the table's default, which the insert does not set.
- Profile.ProfileStore.Put: the body is a JSON object. A body that is not an object, where `key in body` would throw, is not modelled.
- ApiKeys.KeyStore.Post: `org_id` and `name` are strings and `scopes` a list of strings or absent. The source tests them with JavaScript truthiness only, so a truthy non-string such as `{"org_id": "o", "name": 42}` passes its 400 check and reaches the insert, where the model answers 400; a truthy non-list `scopes` is passed to the store, where the model uses the default scopes. A malformed body makes `request.json()` throw after the 401 check; that outcome is not modelled.
- Scoring.ScoringStore.Post: `org_id`, `subject_name`, `subject_phone`, `subject_id_number` and `priority` are strings or absent. The source's checks `!org_id` and `!subject_phone && !subject_name` accept any truthy JSON value, so a truthy non-string (a number, an object) passes them where the model answers 400, and a truthy non-string `priority` or name is stored as given where the model uses the default or null. A malformed body makes `request.json()` throw after the 401 check; that outcome is not modelled.
- Organizations.CreateOrganizationPost: `name` is checked with `typeof` in the source as in the model, but `type` is not: a truthy non-string `type` is passed to the store where the model uses `imf`. A malformed body makes `request.json()` throw after the 401 check; that outcome is not modelled.
- Profile.ProfileStore.Put: a malformed body makes `request.json()` throw after the 401 check; that outcome is not modelled.
- The no-organization fallback of the analytics route returns empty distribution and breakdown lists. It is outside the dashboard computation and is not modelled.

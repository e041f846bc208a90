# EcoTracker footprint core in Dafny

EcoTracker is a carbon-footprint web application: a React front end and an Express/MongoDB
back end. Its users fill in twelve sliders across four life domains: transport, energy, food
and consumption. The application turns them into a footprint in kg CO₂ and a band (Excelente,
Bom, Moderado, Alto), then stores the result with a list of recommendations. It shows the
user's history on a dashboard and an analytics page, and compares it with a community-wide
average. This project models the deterministic logic behind it and proves its properties.

One module per source file:

| module | models |
|---|---|
| `Records` (records.dfy) | the stored record (`backend/models/Carbon.js`), and the left-fold sum, extremes and mean of its totals |
| `Calculator` (calculator.dfy) | the factor table, the form and `updateValue`, the two nested summing loops with their floors, `getFootprintLevel`, `generateRecommendations` and the record built for saving |
| `Dashboard` (dashboard.dfy) | `hasData`, `lastCalculation`, `averageFootprint`, `calculationCount`, and which view is rendered |
| `Analytics` (analytics.dfy) | `userAverage`, `comparisonData`, `formattedData` (map then reverse), `categoryDistribution`, and which view is rendered |
| `Community` (community.dfy) | the `/stats` route: one global `$group` for mean and count, the zero fallback, and the 500 answer |
| `Register` (register.dfy) | `handleChange`, and `handleSubmit` with its two checks in order, the toasts, the `signup` call and the loading flag |
| `AuthMiddleware` (auth_middleware.dfy) | header presence, `split(' ')[1]` token extraction, verification, and the 401-or-`next` decision with its effects |

Numbers are exact `real`s, so a factor of 0.21 is exactly 21/100. The stateful parts keep the
source's form:
- `Calculator.SumCategory` and `Calculator.SumCategories` are the two loops of
  `calculateFootprint`, each proved against a recursive specification of its partial sums.
- `Calculator.GenerateRecommendations` pushes its messages one check at a time, and is proved
  equal to a declarative list.
- `Register.RegisterPage` and `AuthMiddleware.Exchange` are classes whose methods update the
  page state or the request/response exchange.

Worked figures, from the code's factor table:
- The untouched default form gives transport 0, energy 35, food 26 and consumption 19, so the
  total is 80 (Bom) and the list is the congratulation alone (`Calculator.DefaultFormResult`).
- With the default sliders and 100 km by car, transport is 21 and the total 101, band Moderado;
  the list is the moderate message alone (`Calculator.HundredKmExample`).
- With the defaults, 150 km and 6 meat meals, the total is 129.5, band Moderado, and the list is
  the moderate message, then the transport advice, then the meat advice
  (`Calculator.AdvisoryOrderExample`).

## Model

| member | source | states |
|---|---|---|
| Calculator.FieldsOf | src/pages/Calculator.jsx:22-27 | each category holds exactly three fields, all of them its own, and every field of the category is listed |
| Calculator.FieldSet | src/pages/Calculator.jsx:22-27 | a field is a key of a category's object exactly when it belongs to that category |
| Calculator.Factor | src/pages/Calculator.jsx:120-125 | the factor table, field by field (0.21, 2.5, 500; 0.2, 15, 0.4; 6, 1.5, 2.5; 10, 5, −2); a factor is negative exactly for recycling |
| Calculator.ShapeOf | src/pages/Calculator.jsx:22-27 | a well-shaped form has every category, each holding exactly its own fields |
| Calculator.StoredValue | src/pages/Calculator.jsx:132-133 | in a category holding its own fields, each field is stored and `formData[category][field]` is its value |
| Calculator.DefaultFormWellShaped | src/pages/Calculator.jsx:22-27 | the initial form has the four categories, each holding exactly its three fields |
| Calculator.Unwrap | src/pages/Calculator.jsx:173 | `Array.isArray(value) ? value[0] : value`: a bare number is kept, an array gives its first element, and the result is `undefined` exactly for an empty array |
| Calculator.UpdateValue | src/pages/Calculator.jsx:171-181 | only `formData[category][field]` changes; the value is the array's first element or the bare number (`undefined` for an empty array); every other category and field is unchanged |
| Calculator.UpdateValueKeepsShape | src/pages/Calculator.jsx:171-181 | an update by a slider of the right category keeps the form's shape; the field reads back the new value, every other field its old one |
| Calculator.UpdateValueReadBack | src/pages/Calculator.jsx:173-179 | after an update, reading any field gives the new value for the updated field and the old value otherwise |
| Calculator.Max0 | src/pages/Calculator.jsx:137-141 | `Math.max(0, x)` is at least 0 and at least x, and is one of the two |
| Calculator.RawCategoryExplicit | src/pages/Calculator.jsx:121-136 | each category's unfloored sum is Σ (value ‖ 0) × factor over its three fields, with the table's constants (recycling −2) |
| Calculator.CategoryOfThree | src/pages/Calculator.jsx:130-136 | the inner loop's sum is the three contributions of the category's fields |
| Calculator.RawTotalIsSumOfCategories | src/pages/Calculator.jsx:128-139 | the running total is the sum of the four unfloored category sums |
| Calculator.ReportedCategories | src/pages/Calculator.jsx:137 | every reported category is ≥ 0 and equals the raw sum whenever that is non-negative |
| Calculator.TotalVersusReportedCategories | src/pages/Calculator.jsx:137-141 | the total, floored once over the unfloored sums, is ≤ the sum of the reported categories, with equality when no category sum is negative |
| Calculator.OnlyConsumptionCanGoNegative | src/pages/Calculator.jsx:121-124 | with non-negative inputs transport, energy and food sums are ≥ 0; consumption can only be pulled below 0 by recycling's −2 |
| Calculator.FootprintLevel | src/pages/Calculator.jsx:87-92 | the four half-open bands, each as an if-and-only-if: < 50, [50,100), [100,200), ≥ 200 |
| Calculator.LevelMonotone | src/pages/Calculator.jsx:87-92 | a larger total never falls in a better band |
| Calculator.Advisories | src/pages/Calculator.jsx:104-108 | the five guarded pushes in source order, each a strict comparison on the raw value (false for `undefined`); at most five messages |
| Calculator.Recommendations | src/pages/Calculator.jsx:94-117 | the band message, then the advisories, and when that is empty the closing message by band; the list always has 1 to 6 entries |
| Calculator.GenerateRecommendations | src/pages/Calculator.jsx:94-117 | the pushes build the band message, then the five advisories in their fixed order, else one closing message by band |
| Calculator.RecommendationsLength | src/pages/Calculator.jsx:94-117 | the list is never empty and has at most six entries |
| Calculator.InAdvisories | src/pages/Calculator.jsx:104-108 | an advisory is pushed exactly when its strict threshold (carKm > 100, electricity > 200, meat > 5, foodWaste > 3, recycling < 3) is met; none is pushed exactly when no threshold is met |
| Calculator.RecommendedIffWarranted | src/pages/Calculator.jsx:98-114 | each message is in the list exactly when warranted: band messages for Alto/Moderado, advisories by threshold, the congratulation only below 100 with no advisory, the "equilibrados" message never |
| Calculator.CongratulationStandsAlone | src/pages/Calculator.jsx:110-111 | the congratulation appears only as the sole entry |
| Calculator.BandMessageFirst | src/pages/Calculator.jsx:98-102 | the list starts with the high (moderate) message exactly when the band is Alto (Moderado) |
| Calculator.SumCategory | src/pages/Calculator.jsx:131-136 | the inner loop leaves `categoryTotal` equal to the category's unfloored sum |
| Calculator.SumCategories | src/pages/Calculator.jsx:127-139 | the outer loop leaves `total` equal to the unfloored grand total and every category's result equal to its sum floored at 0 |
| Calculator.CalculateFootprint | src/pages/Calculator.jsx:119-150 | the record built for saving has exactly the total floored once, the floored categories and the recommendations for that total |
| Calculator.DefaultFormResult | src/pages/Calculator.jsx:22-27 | the initial form gives 0, 35, 26, 19 and total 80, band Bom, and the congratulation as the whole list |
| Calculator.DefaultValues | src/pages/Calculator.jsx:22-27 | the initial form is well-shaped and holds the listed slider values |
| Calculator.DefaultSlidersExample | src/pages/Calculator.jsx:119-141 | any form with the default values gives 0, 35, 26, 19, total 80, and only the congratulation |
| Calculator.HundredKmExample | src/pages/Calculator.jsx:119-141 | defaults with 100 km by car give 21, 35, 26, 19 and total 101, band Moderado, and only the moderate message (100 is not above the threshold) |
| Calculator.AdvisoryOrderExample | src/pages/Calculator.jsx:98-108 | defaults with 150 km and 6 meat meals total 129.5, listing the moderate message, then transport, then meat |
| Calculator.RecyclingCreditExample | src/pages/Calculator.jsx:121-141 | recycling 5 (the slider's top) with no shopping and no waste drives consumption to −10, reported as 0, while the total still drops to 51, below the 61 the reported categories add to |
| Calculator.HundredKmFromDefaults | src/pages/Calculator.jsx:171-181 | moving the initial form's car slider to [100] gives the form of the 101 example |
| Records.MinTotal | src/pages/Analytics.jsx:51 | the smallest total of a non-empty list is a lower bound and is attained |
| Records.MaxTotal | src/pages/Analytics.jsx:51 | the largest total of a non-empty list is an upper bound and is attained |
| Records.SumTotals | src/pages/Dashboard.jsx:29 | the `reduce((acc, item) => acc + item.totalFootprint, 0)` left fold; a single record sums to its own total |
| Records.Mean | backend/routes/community.js:14 | mean × count = Σ totals |
| Records.SumTotalsBetween | src/pages/Dashboard.jsx:29 | bounds on every total bound the left-fold sum by count × bound |
| Records.MeanWithin | src/pages/Analytics.jsx:51 | bounds on every total bound the mean |
| Records.MeanBetweenExtremes | src/pages/Analytics.jsx:51 | the mean lies between the smallest and the largest total |
| Records.MeanNonNegative | src/pages/Analytics.jsx:51 | with no negative total the mean is ≥ 0 |
| Records.SumTotalsOnlyReadsTotals | src/pages/Dashboard.jsx:29 | the sum depends on nothing but the totals, position by position |
| Dashboard.LastCalculation | src/pages/Dashboard.jsx:24-27 | there is a last calculation exactly when the list is non-empty, and it is the first record |
| Dashboard.AverageFootprint | src/pages/Dashboard.jsx:28-30 | 0 with no data, and average × count = Σ totals, with no division by zero |
| Dashboard.CalculationCount | src/pages/Dashboard.jsx:31 | the count is 0 exactly when there is no data, and at least 1 whenever there is a last calculation |
| Dashboard.Render | src/pages/Dashboard.jsx:16-52 | the spinner exactly while loading; the welcome card exactly when loaded without data; otherwise the first record, the mean and the (positive) count |
| Dashboard.LastIsMostRecent | src/pages/Dashboard.jsx:27 | with the list served newest first, the last calculation is the most recent record |
| Dashboard.AverageWithinExtremes | src/pages/Dashboard.jsx:28-30 | the average lies between the smallest and the largest total |
| Dashboard.AverageNonNegative | src/pages/Dashboard.jsx:28-30 | with no negative total the average is ≥ 0, and with no data it is 0 |
| Dashboard.HasData | src/pages/Dashboard.jsx:24 | `carbonData.length > 0`: there is data exactly when the list is non-empty |
| Analytics.UserAverage | src/pages/Analytics.jsx:51 | average × count = Σ totals over the non-empty list |
| Analytics.UserAverageWithinExtremes | src/pages/Analytics.jsx:51 | the user average lies between the smallest and the largest total |
| Analytics.ComparisonData | src/pages/Analytics.jsx:53-56 | exactly two bars: "Sua Média" with the user average, then "Média da Comunidade" with the community average |
| Analytics.SameAverageAsDashboard | src/pages/Dashboard.jsx:28-30 | for the same non-empty data the dashboard average equals `userAverage` |
| Analytics.ToPoint | src/pages/Analytics.jsx:58-61 | a point carries the record's date and total and its four category values spread in |
| Analytics.Reverse | src/pages/Analytics.jsx:62 | `reverse()`: same length; a non-empty list's first element becomes the last and its last the first |
| Analytics.Points | src/pages/Analytics.jsx:58-61 | one point per record, point i made from record i |
| Analytics.ReverseAt | src/pages/Analytics.jsx:62 | reversal keeps the length and moves position i to n − 1 − i |
| Analytics.ReverseReverse | src/pages/Analytics.jsx:62 | reversing twice gives the original list |
| Analytics.FormattedData | src/pages/Analytics.jsx:58-62 | as many points as records; point i comes from record n − 1 − i |
| Analytics.PointCopiesRecord | src/pages/Analytics.jsx:59-61 | each point's date, total and four category values are its record's, unchanged |
| Analytics.TrendOldestFirst | src/pages/Analytics.jsx:58-62 | a newest-first list gives an oldest-first series |
| Analytics.Label | src/pages/Analytics.jsx:65 | the `nomes` table: Transporte, Energia, Alimentação, Consumo; no name is empty |
| Analytics.LabelsDistinct | src/pages/Analytics.jsx:65 | different categories get different display names |
| Analytics.CategorySum | src/pages/Analytics.jsx:68 | the `reduce` over one category, folded from the left; a single record contributes its own value |
| Analytics.CategoryDistribution | src/pages/Analytics.jsx:64-70 | one slice per category key, in key order, named by its label, whose value is the sum of that category over all records |
| Analytics.Slices | src/pages/Analytics.jsx:64-70 | one slice per key, in order, with its label and the category's sum |
| Analytics.CategorySumsAddUp | src/pages/Analytics.jsx:68 | the four category sums add up to Σ over records of their four category values |
| Analytics.DistributionAddsUp | src/pages/Analytics.jsx:64-70 | the four slice values add up to Σ over records of their category values |
| Analytics.CategorySumNonNegative | src/pages/Analytics.jsx:68 | a category sum is ≥ 0 when that category is ≥ 0 in every record |
| Analytics.DistributionNonNegative | src/pages/Analytics.jsx:64-70 | every slice is ≥ 0 when every record's categories are |
| Analytics.CategorySumOfRepeats | src/pages/Analytics.jsx:68 | a slice is a sum, not an average: n equal breakdowns give n times the value |
| Analytics.Render | src/pages/Analytics.jsx:15-70 | the spinner exactly while loading; the no-data card exactly when loaded with no records; otherwise the comparison, the trend and the distribution |
| Community.GroupAll | backend/routes/community.js:10-18 | no document gives no group; otherwise exactly one global group whose count is the number of records and whose average × count = Σ totals |
| Community.CommunityStats | backend/routes/community.js:20-30 | zero average and zero count with no records; otherwise the count of records and average × count = Σ totals |
| Community.StatsHandler | backend/routes/community.js:8-36 | status 500 with "Erro no servidor" exactly when the aggregation fails, otherwise the statistics as JSON |
| Community.AverageWithinExtremes | backend/routes/community.js:14-22 | the community average lies between the smallest and the largest total |
| Community.OnlyTotalsMatter | backend/routes/community.js:10-18 | the aggregate is global: lists with equal totals position by position, whoever owns them, give the same statistics |
| Register.HandleChange | src/pages/Register.jsx:58-63 | the named field takes the new value; every other field is unchanged and no field is lost |
| Register.HandleChangeKeepsFields | src/pages/Register.jsx:14-63 | a change to one of the four inputs keeps exactly the four fields |
| Register.ChangesCommute | src/pages/Register.jsx:58-63 | changes to two different fields can be applied in either order |
| Register.Validate | src/pages/Register.jsx:31-46 | the mismatch error exactly when the passwords differ; the length error exactly when they match and are shorter than 6; acceptance exactly otherwise |
| Register.MismatchReportedFirst | src/pages/Register.jsx:31-46 | when both checks fail only the mismatch is reported |
| Register.Forwarded | src/pages/Register.jsx:50-54 | `signup` receives the form's name, e-mail and password |
| Register.ConfirmationNotForwarded | src/pages/Register.jsx:50-54 | forms differing only in the confirmation send the same data |
| Register.RegisterPage.constructor | src/pages/Register.jsx:14-22 | the page starts with four empty fields, not loading, no toast and no call |
| Register.RegisterPage.Change | src/pages/Register.jsx:58-63 | an input's change updates only its field and nothing else on the page |
| Register.RegisterPage.HandleSubmit | src/pages/Register.jsx:28-56 | a rejected submission adds exactly one destructive "Erro no cadastro" toast with the failing check's text and calls nothing; an accepted one calls `signup` once with loading raised and leaves loading false |
| AuthMiddleware.Split | backend/middleware/middleware/authMiddleware.js:11 | at least one piece, none containing a space |
| AuthMiddleware.JoinSplit | backend/middleware/middleware/authMiddleware.js:11 | joining the pieces with single spaces gives back the header |
| AuthMiddleware.SplitAfterWord | backend/middleware/middleware/authMiddleware.js:11 | a space-free word, a space and a rest split into the word, then the rest's pieces |
| AuthMiddleware.SplitWord | backend/middleware/middleware/authMiddleware.js:11 | a space-free string is a single piece |
| AuthMiddleware.SplitJoin | backend/middleware/middleware/authMiddleware.js:11 | space-free pieces joined with single spaces split back into the same pieces |
| AuthMiddleware.Token | backend/middleware/middleware/authMiddleware.js:11 | the token exists exactly when there are at least two pieces, and it is the second |
| AuthMiddleware.Authenticate | backend/middleware/middleware/authMiddleware.js:4-23 | every rejection is a 401; "no token" exactly when the header is missing or empty; "malformed" exactly when there is a header but no second piece or an empty one; "invalid" exactly when the token is present but fails verification |
| AuthMiddleware.PassIffVerified | backend/middleware/middleware/authMiddleware.js:13-23 | the request passes exactly when a non-empty token exists and verifies, and then with the decoded user |
| AuthMiddleware.AnySchemeAccepted | backend/middleware/middleware/authMiddleware.js:11 | the scheme word is never checked: `scheme token` yields `token` |
| AuthMiddleware.BasicSchemeExample | backend/middleware/middleware/authMiddleware.js:11 | "Basic abc" yields "abc" |
| AuthMiddleware.SchemeAloneMalformed | backend/middleware/middleware/authMiddleware.js:11-15 | "Bearer" alone is rejected as malformed |
| AuthMiddleware.DoubleSpaceMalformed | backend/middleware/middleware/authMiddleware.js:11-15 | "Bearer  x" has an empty second piece and is rejected as malformed |
| AuthMiddleware.Effects | backend/middleware/middleware/authMiddleware.js:17-23 | one or two events; next is called exactly on a pass, first the user is set and next comes last; a rejection is a single response carrying the decision's status and message |
| AuthMiddleware.ExactlyOneOutcome | backend/middleware/middleware/authMiddleware.js:6-23 | next is called exactly when no response is sent, and only after the user is set |
| AuthMiddleware.Exchange.constructor | backend/middleware/middleware/authMiddleware.js:3 | an exchange starts with no user and no event |
| AuthMiddleware.Exchange.Handle | backend/middleware/middleware/authMiddleware.js:3-24 | the handler's events are exactly the decision's effects; on a pass the request's user is the decoded user, on a rejection it is untouched |

## Left out

- Rendering: JSX, animation, styling, icons, colours, `toFixed(1)` and `toLocaleDateString`. A trend point keeps the record's date as a timestamp rather than its display text.
- Network, storage and navigation: axios, localStorage and `navigate`. Records reach the pages as an input sequence. The newest-first order the records route serves them in is a precondition (`Records.NewestFirst`), not modelled code.
- The save path of `calculateFootprint` (the call to `addCarbonData` and its two toasts, Calculator.jsx:152-168). The model stops at the record built for saving.
- MongoDB and Mongoose: the `$group` stage is modelled by its meaning over the sequence of stored records. A failing aggregation is an input (`None`).
- Feedback submission (its only logic is a non-zero rating guard), the server bootstrap and the CRUD records route.
- `jwt.verify` and the server secret: a parameter `verify` from token to an optional decoded payload. `None` stands for the exception.
- IEEE-754 doubles: every number is an exact `real`, so agreement with JavaScript near a band boundary is not claimed.
- `Calculator.FieldsOf`: the form's keys are fixed to the four categories and their three fields, in the initial object's order. Keys that no slider writes are not modelled.
- `Calculator.GenerateRecommendations`: returns the messages as values of an enumeration, with `Calculator.Text` giving each one's exact Portuguese text, instead of the strings themselves.
- `Calculator.SumCategories`: the nested `forEach` loops are two methods. `Calculator.SumCategory` is the inner loop. The outer loop walks the categories in the form's key order.
- `Analytics.CategoryDistribution`: takes the keys of the first record's categories to be the schema's four. The `|| key` fallback for an unknown key cannot be reached and is not modelled.
- `Register.Validate`: compares the password's length in characters. JavaScript counts UTF-16 code units.
- `Register.RegisterPage.HandleSubmit`: records the `signup` call with its payload and the loading flag at the time. What `signup` does (request, storage, navigation, alert) is not modelled. It catches every error, so `loading` is always lowered afterwards.
- The show/hide password toggles are presentation only.
- `Register.RegisterPage.HandleSubmit`: treats the submission as one atomic step. In the page, `await signup(...)` suspends the handler while only the submit button is disabled, so change events could still alter `formData` before `loading` is lowered; the model runs no change event while `signup` is pending.

# Fashion sales analytics: a verified model of the core

This project models the analytic core of the fashion-sales dashboard in Dafny and proves properties of that model.

**Backend views** (Django, `sales_analysis/views.py`):
- four aggregate views:
  - sales by region;
  - sales by clothing type, with each type's share of all sales;
  - sales by price range;
  - the distribution of ratings over rating categories, with each category's share of all ratings;
- the sales forecast: the 30-row history guard, the date features, the 30-day horizon, and the weekend/jitter/floor adjustment of each point;
- the price recommendation: the listed-price and sold-price statistics are merged per type, then a three-way rule is applied.

**Demo-data command** (`generate_demo_data.py`):
- reference tables, and a catalogue of 30 garments with a first-match price-range lookup;
- 60 days of orders with their items, accumulated totals and ratings.

**Frontend:**
- the authentication store (`stores/auth.ts`): three nullable fields, the `isLoggedIn` getter, and the `login`, `register`, `refreshAccessToken` and `logout` actions;
- the route table and the global navigation guard (`router/index.ts`).

## How the model is built

The ledger is a set of in-memory sequences of records (`ledger.dfy`).

**Grouped queries** (`grouping.dfy`):
- An ORM query `values(label).annotate(Sum, Count).order_by(...)` becomes `Grouping.GroupedQuery`. This is a group-by fold (`GroupBy`) followed by an insertion sort (`SortBy`) under the query's comparator.
- Both are proved against a reference definition. `IsGrouping` says that:
  - labels are distinct;
  - each bucket holds `SumWhere` and `CountWhere` of its label;
  - every row's label has a bucket.
- `Filter` models the views' `if item[...]:` guards.

**Views and loops.** Each view's result-building loop is a method proved against the function that gives its rows. The proofs live in the view files:
- `sales_analysis.dfy` holds the four aggregate views;
- `sales_forecast.dfy` holds the sales forecast, using `calendar.dfy`;
- `price_forecast.dfy` holds the price recommendation;
- `percent.dfy` holds the rounding and percentage helpers they share.

**Inputs:**

| Source value | Model input |
|---|---|
| the regression's fitted model | the parameter `fit` |
| `random.random()` in the forecast | the sequence `draws` |
| every `random` call in the demo command | draw parameters whose ranges are preconditions |
| each network call of the auth store | its outcome, passed as a parameter |

**Dates:**
- A `DateTimeField` value is a day number (days since 1970-01-01) plus a microsecond time of day.
- Calendar features come from Howard Hinnant's era-based civil-date conversion. It is proved to be a bijection between day numbers and Gregorian dates (checked against an independent leap-year rule and month-length table), and one day later is proved to be the next calendar day.
- The history guard counts distinct timestamps, not calendar days, because `order_date` is a `DateTimeField`.

**State in place:**
- The auth store is a class whose methods update its fields. `localStorage` is a field (`storage`) that every action keeps equal to the two token fields.
- Merging price data fills a `map` in two loops.
- The route guard is a pure function.

**Types without sales.**
- A type with no sold items gets `avg_sold_price` 0 (views.py:350-354), so `PriceForecast.Merged` defaults to 0. `PriceForecast.NoSalesSuggestsZero` proves the consequence: such a type is priced 0 whenever its listed average is positive.

## Model

| member | source | states |
|---|---|---|
| Percent.Round2 | fashion_analytics/sales_analysis/views.py:170 | the rounded value is within half a hundredth of the value, stays non-negative, equals a value that is already a whole number of hundredths, and is itself a whole number of hundredths |
| Percent.Percentage | fashion_analytics/sales_analysis/views.py:162-164 | 0 when the denominator is not positive; otherwise p·whole = part·100; between 0 and 100 when 0 ≤ part ≤ whole |
| Grouping.GroupBy | fashion_analytics/sales_analysis/views.py:122-126 | the fold is a grouping of its rows; bucket totals sum to the sum of all rows; counts sum to the number of rows |
| Grouping.SortBy | fashion_analytics/sales_analysis/views.py:127 | the result is sorted by the comparator and is a permutation of the input |
| Grouping.PermutationKeepsGrouping | fashion_analytics/sales_analysis/views.py:127 | reordering the buckets of a grouping leaves a grouping of the same rows |
| Grouping.SortTotals | fashion_analytics/sales_analysis/views.py:127 | sorting keeps the sum of totals and of counts |
| Grouping.GroupedQuery | fashion_analytics/sales_analysis/views.py:122-127 | `values().annotate().order_by()` is a grouping of its rows, sorted by the comparator, with grand totals preserved |
| Grouping.Filter | fashion_analytics/sales_analysis/views.py:192 | a row is kept exactly when it is in the input and passes the guard |
| Grouping.FilterKeepsOrder | fashion_analytics/sales_analysis/views.py:191-197 | dropping rows keeps the rest in order |
| Grouping.FilterKeepsDistinct | fashion_analytics/sales_analysis/views.py:191-197 | dropping rows keeps the labels distinct |
| Grouping.FilterCounts | fashion_analytics/sales_analysis/views.py:219-220 | the kept rows count no more than all rows |
| Grouping.DistinctLabelsFit | fashion_analytics/sales_analysis/views.py:246 | distinct labels that each have a bucket are at most as many as the buckets |
| SalesAnalysis.RegionSalesQuery | fashion_analytics/sales_analysis/views.py:122-127 | the region query groups orders by region name, summing `total_amount`, sorted by total descending |
| SalesAnalysis.RegionResponse | fashion_analytics/sales_analysis/views.py:129-135 | the loop gives one row per query row, in order, copying its name, total and count |
| SalesAnalysis.RegionSalesAnalysis | fashion_analytics/sales_analysis/views.py:120-136 | one row per query row, in order. Totals descend and names are distinct. Each row holds its region's sum and positive order count. Every order's region appears |
| SalesAnalysis.ClothingTypeSalesQuery | fashion_analytics/sales_analysis/views.py:147-152 | order items grouped by clothing type, summing `price*quantity`, total descending |
| SalesAnalysis.TotalSalesAmount | fashion_analytics/sales_analysis/views.py:155-157 | the grand total is the sum of the type totals, and 0 with no items |
| SalesAnalysis.ClothingTypeSalesAnalysis | fashion_analytics/sales_analysis/views.py:145-171 | one row per type, in order, totals descending. Each row holds its type's sum and count. Every percentage is 0 when the grand total is not positive |
| SalesAnalysis.TypeShareResponse | fashion_analytics/sales_analysis/views.py:159-171 | the loop gives one row per query row, in order, with its name, total, count and rounded share of the grand total (0 when that total is not positive) |
| SalesAnalysis.SharesScale | fashion_analytics/sales_analysis/views.py:164 | the unrounded shares sum to 100·(sum of totals)/whole |
| SalesAnalysis.SharesOfWhole | fashion_analytics/sales_analysis/views.py:164 | shares of buckets that make up the whole sum to exactly 100 |
| SalesAnalysis.RoundedSharesNear | fashion_analytics/sales_analysis/views.py:170 | rounding moves the sum of the shares by at most 0.005 per row |
| SalesAnalysis.ClothingTypeSharesSum | fashion_analytics/sales_analysis/views.py:155-170 | with a positive grand total the type shares sum to 100, and their rounded values to 100 ± 0.005 per type |
| SalesAnalysis.PriceRangeSalesQuery | fashion_analytics/sales_analysis/views.py:182-187 | order items grouped by their garment's price range, sorted by the range's `min_price` ascending |
| SalesAnalysis.PriceRangeSalesAnalysis | fashion_analytics/sales_analysis/views.py:180-197 | the result is the query's rows with a named range, in order, each row formatted from its bucket |
| SalesAnalysis.PriceRangeResponse | fashion_analytics/sales_analysis/views.py:190-197 | the loop keeps exactly the rows whose range name is set, in order |
| SalesAnalysis.PriceRangeShown | fashion_analytics/sales_analysis/views.py:182-197 | the shown rows are named, ascending by `min_price`, distinct and hold their sums and counts. Every item's named range is shown |
| SalesAnalysis.RatingDistributionQuery | fashion_analytics/sales_analysis/views.py:208-212 | ratings grouped by category name, count descending; the counts add up to all ratings |
| SalesAnalysis.RatingDistribution | fashion_analytics/sales_analysis/views.py:206-229 | the result is the named categories' rows in order, each with its share of all ratings |
| SalesAnalysis.RatingResponse | fashion_analytics/sales_analysis/views.py:218-229 | the loop keeps exactly the named rows and computes each percentage against the total of all ratings |
| SalesAnalysis.CountSharesScale | fashion_analytics/sales_analysis/views.py:223 | the unrounded count shares sum to 100·(sum of counts)/total |
| SalesAnalysis.CountSharesBound | fashion_analytics/sales_analysis/views.py:215-223 | when the counts add up to at most the total, the shares sum to at most 100 |
| SalesAnalysis.CountSharesOfNothing | fashion_analytics/sales_analysis/views.py:221-222 | with no ratings every share is 0 |
| SalesAnalysis.RoundedCountSharesNear | fashion_analytics/sales_analysis/views.py:223-228 | rounding moves the sum of the count shares by at most 0.005 per row |
| SalesAnalysis.RatingSharesAtMost100 | fashion_analytics/sales_analysis/views.py:215-229 | the shown categories, a null category excluded, have shares summing to at most 100, and their rounded percentages to at most 100 + 0.005 per row. They are named, in count order and distinct |
| Calendar.CivilRoundTrip | fashion_analytics/sales_analysis/views.py:256 | converting a day number to its civil date and back gives the same day |
| Calendar.CivilValid | fashion_analytics/sales_analysis/views.py:258-260 | every converted date is a Gregorian date: its day is at most the length of its month, with 29 February only in leap years |
| Calendar.DaysCivilRoundTrip | fashion_analytics/sales_analysis/views.py:256-260 | converting a Gregorian date to its day number and back gives the same date, so the conversion is a bijection between day numbers and Gregorian dates |
| Calendar.NextDate | fashion_analytics/sales_analysis/views.py:285 | the calendar day after a Gregorian date is again a Gregorian date |
| Calendar.NextDay | fashion_analytics/sales_analysis/views.py:284-285 | the date of the next day number is the calendar day after the date of this one, across month, year and leap-day ends |
| Calendar.CivilInRange | fashion_analytics/sales_analysis/views.py:258-260 | every converted date has month 1..12 and day 1..31 |
| Calendar.DayOfWeek | fashion_analytics/sales_analysis/views.py:257 | `dt.dayofweek` lies in 0..6 (Monday 0) |
| Calendar.DayOfWeekNext | fashion_analytics/sales_analysis/views.py:284-290 | the weekday advances by one each day and repeats weekly |
| Calendar.Epoch | fashion_analytics/sales_analysis/views.py:257 | day 0 is Thursday 1970-01-01 |
| SalesForecast.DailySalesQuery | fashion_analytics/sales_analysis/views.py:241-243 | a grouping of orders by `order_date`, summing `total_amount`, in strictly increasing timestamp order |
| SalesForecast.MeanDailySales | fashion_analytics/sales_analysis/views.py:281 | the mean times the number of rows is the sum of daily sales |
| SalesForecast.FeaturesOf | fashion_analytics/sales_analysis/views.py:256-260 | the weekday is `DayOfWeek` of the day, the date is a Gregorian date within its month's length, and it converts back to the timestamp's day |
| SalesForecast.TrainingSet | fashion_analytics/sales_analysis/views.py:263-264 | one training row per daily row, features and target from that row |
| SalesForecast.WeekdayEffect | fashion_analytics/sales_analysis/views.py:303-305 | the effect is 1.2 exactly on weekday 5 or later (Saturday, Sunday) and 1.0 otherwise |
| SalesForecast.WeekendExamples | fashion_analytics/sales_analysis/views.py:303-305 | Saturday 1 June 2024 and the Sunday after get 1.2; the Friday before and the Monday after get 1.0 |
| SalesForecast.RandomFactor | fashion_analytics/sales_analysis/views.py:308 | the jitter lies in [0.85, 1.15) |
| SalesForecast.Adjust | fashion_analytics/sales_analysis/views.py:303-315 | a negative base gives half the mean; otherwise the point lies between base·w·0.85 and base·w·1.15; with a non-negative mean the point is non-negative |
| SalesForecast.PointAt | fashion_analytics/sales_analysis/views.py:284-324 | point i is dated the Gregorian date i days after the last date, its value is within half a cent of the adjusted prediction for that date, and it is non-negative when the mean is |
| SalesForecast.SalesForecastView | fashion_analytics/sales_analysis/views.py:239-325 | an error exactly when there are fewer than 30 daily rows. Otherwise the model is fit on the training set and gives 30 points, the i-th being `PointAt(i)` |
| SalesForecast.ForecastHorizon | fashion_analytics/sales_analysis/views.py:275-325 | 30 points, point i being the adjusted, rounded prediction for the i-th day after the last date |
| SalesForecast.Predict | fashion_analytics/sales_analysis/views.py:284-317 | the k-th date is `last_date` + k days, and the k-th prediction is the adjusted base prediction for it |
| SalesForecast.FormatForecast | fashion_analytics/sales_analysis/views.py:320-325 | each row is the civil date of its day and its prediction rounded to 2 places |
| Ledger.AddDays | fashion_analytics/sales_analysis/views.py:285 | `timedelta(days=n)` keeps the time of day and moves the day number by n: later for positive n, not earlier for n ≥ 0 |
| SalesForecast.LastRowIsLatest | fashion_analytics/sales_analysis/views.py:278 | the last daily row's timestamp is the latest order date |
| SalesForecast.HorizonIsConsecutive | fashion_analytics/sales_analysis/views.py:284-285 | each horizon point is dated the calendar day after the point before it |
| SalesForecast.MeanNonNegative | fashion_analytics/sales_analysis/views.py:281 | non-negative order totals give a non-negative mean |
| SalesForecast.ForecastNonNegative | fashion_analytics/sales_analysis/views.py:311-324 | non-negative order totals give non-negative forecast points |
| SalesForecast.AdjustExamples | fashion_analytics/sales_analysis/views.py:303-315 | a Saturday is raised by 20%, a Wednesday is not, and a negative base becomes half the mean |
| PriceForecast.LexLeTotal | fashion_analytics/sales_analysis/views.py:338 | any two names are ordered one way or the other |
| PriceForecast.LexLeTransitive | fashion_analytics/sales_analysis/views.py:338 | the name order is transitive |
| PriceForecast.LexLeAntisymmetric | fashion_analytics/sales_analysis/views.py:338 | names ordered both ways are equal |
| PriceForecast.NameAscIsTotalPreorder | fashion_analytics/sales_analysis/views.py:338 | `order_by('clothing_type__name')` is a total preorder, so `SortBy` applies |
| PriceForecast.SortedByNameIsStrict | fashion_analytics/sales_analysis/views.py:336-338 | distinct names sorted ascending are strictly ascending |
| PriceForecast.PriceDataQuery | fashion_analytics/sales_analysis/views.py:336-338 | garments grouped by type name, summing price, sorted by name |
| PriceForecast.Average | fashion_analytics/sales_analysis/views.py:337 | `Avg` times the count is the sum |
| PriceForecast.SalesDataQuery | fashion_analytics/sales_analysis/views.py:341-344 | one row per sold type, distinct. Each row's quantity is its total sold and its sold price is the average item price. Every item's type appears |
| PriceForecast.LastSale | fashion_analytics/sales_analysis/views.py:356-360 | none exactly when no sales row has the name; otherwise the last sales row of that name |
| PriceForecast.Merged | fashion_analytics/sales_analysis/views.py:347-360 | a type's entry holds its listed average, and the figures of its last sales row, or 0 and 0 when it has none |
| PriceForecast.Merge | fashion_analytics/sales_analysis/views.py:346-360 | the dictionary's keys are exactly the price-data names, in that order. Each entry holds the listed average, with the sales stats when there are any and 0, 0 otherwise |
| PriceForecast.ListedPrices | fashion_analytics/sales_analysis/views.py:347-354 | one entry per price-data name, in query order, holding that type's average price and 0 for both sales figures |
| PriceForecast.MergeSales | fashion_analytics/sales_analysis/views.py:356-360 | each listed type ends up with the figures of its last sales row, or keeps 0 and 0 when it has none; unlisted sales rows add no key |
| PriceForecast.Suggest | fashion_analytics/sales_analysis/views.py:363-378 | one suggestion per key in dictionary order, the rounded result of the rule |
| PriceForecast.PriceForecastView | fashion_analytics/sales_analysis/views.py:334-378 | one suggestion per type with garments, the i-th being the rule applied to that type's merged data |
| PriceForecast.SuggestionsCoverTypes | fashion_analytics/sales_analysis/views.py:348-364 | every garment's type gets a suggestion. Suggestions are in strictly ascending name order, and types without garments have none |
| PriceForecast.SuggestPrice | fashion_analytics/sales_analysis/views.py:365-373 | the result is the listed average, sold×1.05 or sold×0.95, and differs from the listed average only when a raise or lowering condition holds |
| PriceForecast.SuggestPriceCases | fashion_analytics/sales_analysis/views.py:365-373 | the raise case gives sold×1.05, the lower case sold×0.95, and a quantity of 50 to 100 or a sold price equal to the listed one gives the listed price |
| PriceForecast.SuggestPriceDirection | fashion_analytics/sales_analysis/views.py:362-373 | the raise case lands above the listed price and the lower case below it |
| PriceForecast.NoSalesSuggestsZero | fashion_analytics/sales_analysis/views.py:350-373 | a type with no sold items and a positive listed average is suggested price 0 |
| PriceForecast.NoSalesRow | fashion_analytics/sales_analysis/views.py:356-360 | a type with no items has no sales row |
| PriceForecast.SuggestPriceExamples | fashion_analytics/sales_analysis/views.py:365-373 | five worked cases of the rule: two raises (189 and 210), one lowering (133), and the two quantity boundaries 100 and 50, which keep the listed price |
| DemoData.FirstRange | fashion_analytics/sales_analysis/management/commands/generate_demo_data.py:127 | the position of the first range containing the price; none exactly when no range contains it |
| DemoData.FindPriceRange | fashion_analytics/sales_analysis/management/commands/generate_demo_data.py:127 | the first range with `min_price ≤ price ≤ max_price`, or the default when there is none |
| DemoData.BoundaryPricesResolveLow | fashion_analytics/sales_analysis/management/commands/generate_demo_data.py:83-89 | the boundary prices 100, 300, 500 and 1000 resolve to the lower of their two ranges |
| DemoData.DemoRangesCover | fashion_analytics/sales_analysis/management/commands/generate_demo_data.py:83-89 | every price in 0..99999 has a demo range, so the lookup never uses its default |
| DemoData.FirstNamed | fashion_analytics/sales_analysis/management/commands/generate_demo_data.py:130 | the first clothing type with the name, if any |
| DemoData.FamilyType | fashion_analytics/sales_analysis/management/commands/generate_demo_data.py:63-73 | each garment family's type is found, at the family's own position in the type table |
| DemoData.CreateFamily | fashion_analytics/sales_analysis/management/commands/generate_demo_data.py:124-137 | the loop appends one garment per name, with the drawn price, its first-match range and the drawn stock |
| DemoData.CreateCatalogue | fashion_analytics/sales_analysis/management/commands/generate_demo_data.py:122-217 | the six family blocks create the catalogue, block after block |
| DemoData.GarmentWellFormed | fashion_analytics/sales_analysis/management/commands/generate_demo_data.py:125-135 | a garment drawn within its family's bounds has the family's type, price and stock bounds and a range containing its price |
| DemoData.CatalogueWellFormed | fashion_analytics/sales_analysis/management/commands/generate_demo_data.py:124-217 | every catalogue garment belongs to a family and is priced in a demo range containing its price |
| DemoData.DemoCatalogue | fashion_analytics/sales_analysis/management/commands/generate_demo_data.py:120-217 | the demo catalogue has 30 garments, each of its family and priced in range |
| DemoData.CreateOrder | fashion_analytics/sales_analysis/management/commands/generate_demo_data.py:233-297 | appends one order whose total is the sum of `price*quantity` over its items, one item per sampled garment, and its ratings when rated |
| DemoData.CreateItems | fashion_analytics/sales_analysis/management/commands/generate_demo_data.py:258-273 | one item per sampled garment at its price and drawn quantity; the total is the sum of `price*quantity` over them |
| DemoData.CreateRatings | fashion_analytics/sales_analysis/management/commands/generate_demo_data.py:278-295 | one rating per sampled garment, with its drawn stars, a category from its band and a date its drawn delay after the order |
| DemoData.OrderKeepsTables | fashion_analytics/sales_analysis/management/commands/generate_demo_data.py:242-297 | after an order, every item has quantity 1..3 at its garment's price. Every order's total is its line total over 1 to 5 items. Every rating is banded and dated 3..15 days after its order |
| DemoData.OrderKeepsDates | fashion_analytics/sales_analysis/management/commands/generate_demo_data.py:227-255 | an order dated `day_back` days back adds one to that day's count and changes no other day's |
| DemoData.CreateDay | fashion_analytics/sales_analysis/management/commands/generate_demo_data.py:228-297 | one day of orders keeps the table facts, and that day gets exactly `daily_orders` orders |
| DemoData.CreateHistory | fashion_analytics/sales_analysis/management/commands/generate_demo_data.py:226-297 | every order is dated 1..60 days before `today`, each of those 60 days has 1 to 5 orders, and the table facts hold |
| DemoData.Handle | fashion_analytics/sales_analysis/management/commands/generate_demo_data.py:120-297 | the garment count is that of the stored garments: nothing is added with 30 of them stored, and no orders with 100 orders stored; otherwise the catalogue and the 60-day history as above |
| DemoData.HistoryPassesForecastGuard | fashion_analytics/sales_analysis/management/commands/generate_demo_data.py:226-231 | a history with orders on each of the 60 days has at least 60 daily rows, above the forecast's minimum of 30 |
| DemoData.StoredOrders | fashion_analytics/sales_analysis/models.py:78 | `auto_now_add` keeps an order's region and total and replaces its date with the creation instant |
| DemoData.StoredRatings | fashion_analytics/sales_analysis/models.py:116 | `auto_now_add` keeps a rating's garment, stars and category and replaces its date with the creation instant |
| DemoData.AutoNowAddLosesHistory | fashion_analytics/sales_analysis/management/commands/generate_demo_data.py:249-255 | as written, in a run within one day none of the 60 backdated days keeps an order, though each was given one |
| DemoData.AutoNowAddLosesRatingDelay | fashion_analytics/sales_analysis/management/commands/generate_demo_data.py:288-295 | as written, a rating's delay after its order is the order's age, beyond 15 days for orders older than that |
| AuthStore.LoginError | fashion-analytics-frontend/src/stores/auth.ts:53-57 | the server's non-empty `error` message, the default message otherwise; never empty |
| AuthStore.RegisterError | fashion-analytics-frontend/src/stores/auth.ts:78-83 | the whole error data when there was a response, the default message otherwise |
| AuthStore.Store.constructor | fashion-analytics-frontend/src/stores/auth.ts:22-26 | no user; the tokens are read from storage, which the fields then mirror |
| AuthStore.Store.IsLoggedIn | fashion-analytics-frontend/src/stores/auth.ts:29 | logged in exactly when the token is present and non-empty |
| AuthStore.Store.SignIn | fashion-analytics-frontend/src/stores/auth.ts:40-47 | the user and both tokens are set from the reply and both tokens are stored, so storage mirrors the fields |
| AuthStore.Store.Login | fashion-analytics-frontend/src/stores/auth.ts:33-58 | on an answer, success and the three fields set from it, both tokens stored. On a rejection, nothing changes and the error falls back to the default message. Storage stays mirrored |
| AuthStore.Store.Register | fashion-analytics-frontend/src/stores/auth.ts:61-84 | as login, but a rejection returns the error data or the register default message |
| AuthStore.Store.RefreshAccessToken | fashion-analytics-frontend/src/stores/auth.ts:86-104 | without a refresh token, false and no change. On an answer, true, and only the token and its stored copy change. On a rejection, false and logged out |
| AuthStore.Store.Logout | fashion-analytics-frontend/src/stores/auth.ts:106-114 | all three fields null, both stored tokens removed, not logged in |
| RouterGuard.AnyRequiresAuth | fashion-analytics-frontend/src/router/index.ts:86 | true exactly when some matched record requires auth |
| RouterGuard.AnyGuest | fashion-analytics-frontend/src/router/index.ts:94 | true exactly when some matched record is guest-only |
| RouterGuard.Guard | fashion-analytics-frontend/src/router/index.ts:81-103 | requires-auth: login when logged out, proceed when logged in. Otherwise guest: dashboard when logged in, proceed when logged out. Neither flag: proceed |
| RouterGuard.Matched | fashion-analytics-frontend/src/router/index.ts:6-77 | a named route's matched records, starting with its top-level ancestor; never empty when found |
| RouterGuard.SkipUnmatched | fashion-analytics-frontend/src/router/index.ts:6-77 | records that neither are nor contain the route do not change its match |
| RouterGuard.ChildrenAreProtected | fashion-analytics-frontend/src/router/index.ts:31-76 | every child of `/analysis` and `/forecast` matches its protected parent first, so a logged-out user is sent to login |
| RouterGuard.NoRedirectLoop | fashion-analytics-frontend/src/router/index.ts:13-30 | `login` is guest-only and a logged-out user proceeds there; `dashboard` requires auth and a logged-in user proceeds there |
| RouterGuard.RedirectTargets | fashion-analytics-frontend/src/router/index.ts:86-99 | a logged-out user is only ever sent to login and a logged-in user only to dashboard |
| RouterGuard.RequiresAuthTakesPrecedence | fashion-analytics-frontend/src/router/index.ts:86-99 | with both flags present, `requiresAuth` decides |

## Left out

- The regression (views.py:267-272, 297-300): `StandardScaler` and `LinearRegression` are floating-point numerics. The fitted model is an uninterpreted parameter `fit`. The model states only what `fit` is given and where its predictions go.
- pandas and `datetime` (views.py:253-260): dates are UTC day numbers, converted by the civil-calendar functions. Time zones are not modelled.
- Randomness: every `random` call is a parameter, and the range of each draw is a precondition.
- Floating point: amounts are `real`. Python floats and `Decimal` rounding are not modelled.
- Percent.Round2: rounds halves up on exact reals. Python's `round(x, 2)` on a binary float rounds to even and sees the float's representation error. The model proves only that the result is within 0.005 of the value and is a whole number of hundredths.
- Query execution, `Response`, HTTP status codes, serializers, permission classes, and the auth views (views.py:33-113): framework plumbing.
- Order of the null price-range group: the database places the group with no price range in its own order; the model sorts it last. The view drops that group, so the shown rows do not depend on it.
- String order: `order_by` on names is code-point lexicographic in the model. A database collation may order names differently.
- serializers.py, urls.py, models.py beyond the record shapes, manage.py (a web scraper) and services/api.ts (axios interceptors) are not part of this model.
- Demo command:
  - users, order numbers, comments, garment descriptions, stdout output, `get_or_create` idempotence and the transaction are not modelled.
  - Rows already in the tables are not modelled. The model describes the rows one run adds, with the counts of stored garments and orders as inputs.
- DemoData.Handle: the order of `Clothing.objects.all()` is unspecified. The pool is modelled as the new garments, then the stored ones, then the new ones again. Sampled positions are distinct, but the same garment can be picked twice.
- DemoData.CreateHistory: the dates are stored as passed. The fields' `auto_now_add` is modelled separately; see Findings.
- AuthStore:
  - the HTTP POSTs, the `Authorization` default header of axios, and the username, password and form data, which only go into the request, are not modelled;
  - a success reply is assumed to carry `user`, `access` and `refresh`;
  - an error response's data is an object with an optional `error` member, and non-object bodies are not modelled;
  - actions run one at a time, so interleavings of concurrent async actions are not modelled.
- RouterGuard: `/` redirects to `/dashboard`, and vue-router resolves that redirect before the guard runs. Only the records and their `meta` flags are modelled; component loading and `from` are not.

## Findings

| source | as written | input that shows it | evidently intended | confidence | as-written member | corrected member |
|---|---|---|---|---|---|---|
| fashion_analytics/sales_analysis/models.py:78 | `order_date` is `auto_now_add=True`, so the backdated `order_date` passed at generate_demo_data.py:254 is replaced by the creation instant | any run of the command within one day: every order is dated that day and none lies on the 60 days before | each order dated `day_back` days before today, 1 to 5 orders on each of 60 days | high (Django's `auto_now_add` semantics); not executed | DemoData.AutoNowAddLosesHistory | DemoData.CreateHistory |
| fashion_analytics/sales_analysis/models.py:116 | `Rating.created_at` is `auto_now_add=True`, so the `created_at` passed at generate_demo_data.py:294 is replaced by the creation instant | a rating for an order placed 20 days before the run is dated 20 days after it | each rating dated 3 to 15 days after its order | high (Django's `auto_now_add` semantics); not executed | DemoData.AutoNowAddLosesRatingDelay | DemoData.CreateHistory |

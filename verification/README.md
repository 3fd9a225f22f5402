# VIS valuation dashboard — a Dafny model of its scoring and list logic

VIS is a stock valuation dashboard. It has two parts:

- **Batch scripts.** SP500SQL.py and NasdaqSQL.py score every ticker of an index and store one row per ticker. A row holds nine ratios, a Graham-style intrinsic value, a margin of safety and a 0–100 rating.
- **A Next.js front end.** The calculator page scores a company typed in by the user, with a rating of at most 0.9375 that turns negative when the price is well above the intrinsic value, and keeps a sortable, searchable history. The market and S&P 500 pages sort and chart the stored rows. The forum and the user administration pages filter, toggle and update lists held in page state. A session store mirrors the login flags into local storage.

The model keeps both scorers and every local list and state update of those pages. It leaves out the HTTP requests, the database and the rendering.

Files, one module each:

- `base.dfy` (`Base`): `Option` and the guarded division both scorers use (0 when the denominator is 0).
- `text.dfy` (`Text`): ASCII `toLowerCase`, `includes` and the string `<`. Together they give the case-insensitive search every list view uses.
- `lists.dfy` (`Lists`): `filter`, and `sort` over a copy.
  - The source comparators never answer 0, so the engine decides the order of equal keys.
  - The sort is modelled as an insertion sort over a key order (numbers, strings, then a "last" key).
  - Only two things are claimed of it: it is a permutation, and elements with distinct keys stand in the direction's order.
- `client_scoring.dfy` (`ClientScoring`): the calculator's `calculateAndSubmit` scorer. Ratios are fractions; the safety term is not clamped at 0.
- `batch_scoring.dfy` (`BatchScoring`): the per-ticker loop body of the two scripts, and the loop that collects the rows.
  - Ratios are percentages and missing quote fields are `None`.
  - The safety term is clamped to [0, 1] and the rating is scaled by 50.
  - NasdaqSQL.py runs the same loop body line for line over another ticker list, so one model serves both scripts.
- `scoring_variants.dfy` (`ScoringVariants`): where the two scorers agree and where they part.
- `calculator_page.dfy` (`CalculatorPage`): the form handler, the history sort header, the sorted and filtered history, and the local delete.
- `market_section.dfy` (`MarketSection`): the rating sort with unrated rows last, the top five, and the chart built from them.
- `display_page.dfy` (`DisplayPage`): the S&P 500 search, its sort and its price chart.
- `admin_users.dfy` (`AdminUsers`): the in-place id sort of the fetched users, update, delete, search and the status label.
- `forum.dfy` (`Forum`): the post search, the request guards, the toggle maps and edit mode, as a `ForumView` class whose handlers update its fields.
- `session_store.dfy` (`SessionStore`): the store as a `Store` class with a local-storage field, plus the restore performed on load.

Money and ratios are Dafny `real`s: exact rationals, not IEEE doubles. Requests become parameters: whether a request succeeded, and what it returned. Each handler returns whether it sent a request.

## Model

| member | source | states |
|---|---|---|
| Base.Quotient | nextjs/pages/Calculator.js:194-226 | Each guarded ratio is 0 when its denominator is 0; otherwise it times the denominator gives the numerator. |
| Text.Lower | nextjs/pages/Calculator.js:158 | `toLowerCase` keeps the length and maps each character by itself (ASCII letters only). |
| Text.Includes | nextjs/pages/Calculator.js:158 | `includes` is true exactly when the needle occurs at some index of the haystack. |
| Text.EmptyQueryMatches | nextjs/pages/Calculator.js:157-159 | An empty search term matches every field. |
| Text.StrBelowIrreflexive | nextjs/pages/display.js:79 | The string `<` used by the comparators is irreflexive. |
| Text.StrBelowTransitive | nextjs/pages/display.js:79-81 | The string `<` is transitive. |
| Text.StrBelowTotal | nextjs/pages/display.js:79-81 | The string `<` is total on distinct strings. |
| Lists.Filter | nextjs/pages/Calculator.js:157-159 | `filter` keeps an in-order subsequence whose elements all pass. Each passing element keeps its multiplicity; each failing one is gone. |
| Lists.FilterKeepsAll | nextjs/pages/Calculator.js:157-159 | When every element passes, `filter` returns the list unchanged. |
| Lists.FilterShrinks | nextjs/pages/admin/users.js:127 | When some element fails, the filtered list is strictly shorter. |
| Lists.PrecedesIsStrictTotalOrder | nextjs/pages/Calculator.js:149-155 | The comparator's key order is irreflexive, transitive and total on distinct keys, in either direction. |
| Lists.InsertKeepsSorted | nextjs/pages/Calculator.js:149-155 | Inserting one element into a sorted list keeps it sorted and keeps its multiset. |
| Lists.SortByKey | nextjs/pages/Calculator.js:149-155 | Sorting a copy gives a permutation of the input, ordered by the key in the chosen direction. |
| Lists.SortedDistinctKeys | nextjs/pages/Calculator.js:149-155 | In a sorted list, two elements with distinct keys stand in the direction's order. |
| Lists.FilterKeepsSorted | nextjs/pages/Calculator.js:157-159 | Filtering a sorted list leaves it sorted. |
| ClientScoring.RatiosOf | nextjs/pages/Calculator.js:166-226 | Each of the seven ratios is 0 when its denominator is 0, and otherwise the exact quotient; ROIC is ROE × 100; quick ratio and ROA pass through. |
| ClientScoring.FillRatios | nextjs/pages/Calculator.js:166-226 | The zero-initialised record, overwritten field by field under each denominator guard, equals `RatiosOf`. |
| ClientScoring.QualityPoints | nextjs/pages/Calculator.js:235-241 | `a` is at most 4. It is 4 exactly when all four quality thresholds hold, and 0 exactly when none does. |
| ClientScoring.LiquidityPoints | nextjs/pages/Calculator.js:244-246 | `c` is at most 3. It is 3 exactly when all three liquidity thresholds hold, and 0 exactly when none does. |
| ClientScoring.LiquidityBonus | nextjs/pages/Calculator.js:248-250 | The bonus lies in [0, 1]. It is 1 exactly for c = 3, and 0 exactly for c = 0 (or out of range). |
| ClientScoring.LeveragePoints | nextjs/pages/Calculator.js:243-252 | `b` lies in [0, 3]. It is 3 exactly when the debt, full-liquidity and ROA conditions all hold. |
| ClientScoring.CountPoints | nextjs/pages/Calculator.js:235-252 | The step-by-step counters equal the three point functions, with their bounds. |
| ClientScoring.CombinedScore | nextjs/pages/Calculator.js:254 | `x` lies in [0, 7/8]. It reaches 7/8 exactly when a = 4 and b = 3. |
| ClientScoring.IntrinsicValue | nextjs/pages/Calculator.js:229-230 | The value is 0 exactly when EPS is 0 or g = -4.25. It is positive for positive EPS and g > -4.25. |
| ClientScoring.MarginOfSafety | nextjs/pages/Calculator.js:231-232 | The margin is undefined exactly when the intrinsic value is 0. Otherwise margin × IV = IV − price. |
| ClientScoring.SafetyTerm | nextjs/pages/Calculator.js:256 | The term is 1 from a margin of 0.4 up and margin/0.4 below it. It is at most 1, and negative exactly for a negative margin. |
| ClientScoring.RatingOf | nextjs/pages/Calculator.js:256 | The rating is undefined exactly with the margin. It is at most 0.9375, and at least 0.5 once the margin reaches 0.4. |
| ClientScoring.Score | nextjs/pages/Calculator.js:161-264 | The submission carries the form's company, price and ratios. The margin is undefined exactly when IV is 0, and otherwise margin × IV = IV − price. The rating is defined exactly with the margin and is at most 0.9375. |
| ClientScoring.CalculateAndSubmit | nextjs/pages/Calculator.js:161-264 | The imperative scorer's submission equals the functional `Score` of the form. |
| ClientScoring.RatingBounds | nextjs/pages/Calculator.js:254-256 | Any computed rating is at most 0.9375; a margin of at least 0.4 gives a rating of at least 0.5. |
| ClientScoring.ZeroDenominatorsScore | nextjs/pages/Calculator.js:194-246 | Zero revenue always earns the SG&A point and zero equity always earns the debt point, while the ratios over them score nothing. |
| ClientScoring.NegativeRatingMargin | nextjs/pages/Calculator.js:256 | A margin below -0.35 makes the rating negative; only a negative margin can. |
| ClientScoring.MarginBelow | nextjs/pages/Calculator.js:231-232 | A price above (1 + k) × a positive IV gives a margin below -k. |
| ClientScoring.OverpricedRatesNegative | nextjs/pages/Calculator.js:229-256 | A stock priced above 1.35 × a positive IV is rated below 0, whatever its ratios. |
| ClientScoring.WorkedExample | nextjs/pages/Calculator.js:194-256 | For a concrete form, values exactly at their thresholds do not score, c = 2 gives 0.5, and the rating is 0.71875. |
| ClientScoring.AllZeroInputHasNoRating | nextjs/pages/Calculator.js:229-256 | All-zero figures give IV 0, with the margin and the rating undefined. |
| BatchScoring.InvestedCapital | SP500SQL.py:120-124 | Invested capital is 0 exactly when total assets equal current liabilities plus cash. With non-negative liabilities and cash it never exceeds total assets. |
| BatchScoring.Nopat | SP500SQL.py:116-121 | Without a tax rate, NOPAT is operating income × 0.79. |
| BatchScoring.Roic | SP500SQL.py:116-127 | ROIC is 0 when invested capital is 0. Otherwise ROIC × IC = NOPAT × 100. |
| BatchScoring.MetricsOf | SP500SQL.py:116-170 | Each percentage is 0 (SG&A: None) when its denominator is 0, and otherwise the exact quotient × 100. D/E, current and cash ratios are plain quotients; quick ratio and ROA pass through. |
| BatchScoring.ComputeMetrics | SP500SQL.py:116-170 | The script's guarded assignments equal `MetricsOf`. |
| BatchScoring.QualityPoints | SP500SQL.py:130-151 | `a` is at most 4. It is 4 exactly when all four thresholds hold; a missing SG&A ratio earns no point. |
| BatchScoring.LiquidityPoints | SP500SQL.py:159-170 | `c` is at most 3. It is 3 exactly when all three hold; a missing quick ratio earns no point. |
| BatchScoring.LeveragePoints | SP500SQL.py:154-181 | `b` lies in [0, 3]. It is 3 exactly when D/E < 0.8, c = 3 and ROA is present and above 10. |
| BatchScoring.CountPoints | SP500SQL.py:130-181 | The step-by-step counters equal the point functions, with their bounds. |
| BatchScoring.CombinedScore | SP500SQL.py:183 | `x` lies in [0, 7/8]. It reaches 7/8 exactly when a = 4 and b = 3. |
| BatchScoring.IntrinsicValue | SP500SQL.py:186 | The value is 0 without EPS; it is positive exactly when EPS is present and positive. |
| BatchScoring.MarginOfSafety | SP500SQL.py:189 | The margin is None exactly when IV ≤ 0. Otherwise margin × IV = IV − price, and it is negative exactly when the price exceeds IV. |
| BatchScoring.Normalize | SP500SQL.py:192-199 | The value lies in [0, 1]: 0 for None or a margin ≤ 0, 1 from 0.4 up, margin/0.4 in between. |
| BatchScoring.NormalizeMonotone | SP500SQL.py:192-199 | A larger margin never lowers the normalised value. |
| BatchScoring.MissingScoresAsFailing | SP500SQL.py:149-181 | A missing SG&A ratio, quick ratio or ROA scores exactly like a present value at its threshold. |
| BatchScoring.MissingNeverScores | SP500SQL.py:149-181 | Dropping one of those figures never adds a point. |
| BatchScoring.Score | SP500SQL.py:116-226 | A ticker is skipped exactly when a positive IV meets a missing price. A kept row carries the company, price and metrics; its rating lies in [0, 93.75]; its margin is present exactly when IV > 0; a row without a margin is rated at most 43.75. |
| BatchScoring.ScoreTicker | SP500SQL.py:116-226 | The imperative loop body, with the raise-and-skip path, equals `Score`. |
| BatchScoring.Kept | SP500SQL.py:186-226 | A ticker reaches its insert unless a positive IV meets a missing stock price. |
| BatchScoring.RowsOf | SP500SQL.py:205-226 | A ticker adds one row when kept and none when skipped, and the row it adds is its score. |
| BatchScoring.Scored | SP500SQL.py:88-226 | The table the loop builds has at most one row per ticker. |
| BatchScoring.ProcessTickers | SP500SQL.py:88-226 | The loop's table equals `Scored`: the kept tickers' rows in ticker order. The loop of NasdaqSQL.py:51-188 is the same body over another ticker list. |
| BatchScoring.ScoredRows | SP500SQL.py:88-226 | A row is in the table exactly when some ticker scores to it. |
| BatchScoring.ScoredLength | SP500SQL.py:88-226 | The table has at most one row per ticker, and exactly one per ticker exactly when no ticker is skipped. |
| BatchScoring.TableRatingsBounded | SP500SQL.py:202 | Every stored rating lies in [0, 93.75]. |
| ScoringVariants.PercentVersusFraction | SP500SQL.py:135-166 | On the same figures, the batch margins and ROE are the calculator's fractions × 100; D/E, current and cash ratios coincide. |
| ScoringVariants.ThresholdsAgree | SP500SQL.py:135-151 | The rescaled thresholds take the same decisions, except SG&A at zero revenue: 0 scores in the calculator, None does not in the batch. |
| ScoringVariants.SafetyTermsCompared | SP500SQL.py:192-199 | The safety terms agree on non-negative margins. On a negative margin the calculator's is below 0 and the batch's is 0. |
| ScoringVariants.IntrinsicValuesAgree | SP500SQL.py:186 | With EPS present and the calculator's growth set to 8, both intrinsic values coincide. |
| ScoringVariants.NegativeValueMargins | SP500SQL.py:189 | A negative IV keeps a margin in the calculator and has none in the batch. |
| ScoringVariants.RatingScale | SP500SQL.py:202 | On the same x and a non-negative margin, the batch rating is 100 × the calculator's; on a negative margin it is higher. |
| ScoringVariants.CombinedScoresAgree | SP500SQL.py:130-183 | On the same figures, same ROIC decision, present quick ratio, ROA in percent and non-zero revenue, both blends x are equal. |
| ScoringVariants.ZeroRevenueDiverges | SP500SQL.py:149-151 | At zero revenue with the other quality tests failing, the calculator scores one point and the batch none. |
| CalculatorPage.WithInput | nextjs/pages/Calculator.js:132-135 | The change handler sets the named field to the typed value and keeps every other field. |
| CalculatorPage.HandleSort | nextjs/pages/Calculator.js:141-147 | The clicked column becomes the key; the direction is "desc" exactly when that column was already ascending. |
| CalculatorPage.RepeatedClicksAlternate | nextjs/pages/Calculator.js:141-147 | A second click on the same header keeps the key and reverses the direction. |
| CalculatorPage.HistoryKey | nextjs/pages/Calculator.js:149-155 | The compared value is never placed last. By company it orders as the string `<`; by rating it orders as `<` on the ratings, with null as 0. |
| CalculatorPage.SortHistory | nextjs/pages/Calculator.js:149-155 | The sorted history is a permutation, ordered by the chosen column (a null rating as 0) in the chosen direction. |
| CalculatorPage.SortedHistoryOrder | nextjs/pages/Calculator.js:149-155 | Records with distinct keys are increasing under "asc" and decreasing under "desc". |
| CalculatorPage.VisibleHistory | nextjs/pages/Calculator.js:149-159 | The shown history stays sorted and holds exactly the matching records, with their multiplicities. |
| CalculatorPage.EmptySearchShowsAll | nextjs/pages/Calculator.js:157-159 | An empty search shows the whole sorted history. |
| CalculatorPage.DeleteLocallyAsWritten | nextjs/pages/Calculator.js:73 | The local delete as written keeps each record whose missing `id` differs from the deleted id. |
| CalculatorPage.DeleteLocallyAsWrittenKeepsAll | nextjs/pages/Calculator.js:73 | The written local delete returns the history unchanged. |
| CalculatorPage.DeleteLocally | nextjs/pages/Calculator.js:73 | The intended local delete drops every record with the deleted `history_id` and keeps the rest in order. |
| CalculatorPage.DeleteLocallyRemoves | nextjs/pages/Calculator.js:73 | The intended delete removes a listed record and shortens the history. |
| MarketSection.GenerateColor | nextjs/pages/MarketSection.js:40-48 | The colour is one of the four palette entries. |
| MarketSection.ColorPeriodic | nextjs/pages/MarketSection.js:40-48 | Colours repeat every four indices. |
| MarketSection.ColorsDistinctWithinFour | nextjs/pages/MarketSection.js:40-48 | Indices fewer than four apart get different colours. |
| MarketSection.MarketKey | nextjs/pages/MarketSection.js:85-95 | A row goes last exactly when its rating is null or undefined. Two rated rows order by rating, ascending under "asc" and descending otherwise. |
| MarketSection.SortedData | nextjs/pages/MarketSection.js:85-95 | The sorted rows are a permutation; unrated rows come after every rated one; rated rows are ordered by rating in the chosen direction. |
| MarketSection.Top5 | nextjs/pages/MarketSection.js:98 | The top rows are the first min(5, n) sorted rows. |
| MarketSection.TopFiveDominates | nextjs/pages/MarketSection.js:54-98 | Under the default "desc", every top-five row is rated and rated at least as high as any rated row left out. |
| MarketSection.Labels | nextjs/pages/MarketSection.js:103 | One label per row: the company, or "N/A" exactly when the company is missing, empty or itself "N/A". |
| MarketSection.Series | nextjs/pages/MarketSection.js:106-110 | One point per row: the column's value, or 0 when it is null or undefined. |
| MarketSection.Chart | nextjs/pages/MarketSection.js:101-119 | The chart has the labels and one dataset per metric. Each dataset has the metric's label and series, border colour `GenerateColor` of its position, and that colour plus "80" as background. |
| MarketSection.ChartColorsDistinct | nextjs/pages/MarketSection.js:104-112 | Datasets fewer than four positions apart never share a colour. |
| DisplayPage.FilterSp500 | nextjs/pages/display.js:69-71 | The filtered rows are an in-order subsequence holding exactly the matching rows. |
| DisplayPage.EmptyQueryKeepsAll | nextjs/pages/display.js:69-71 | An empty search keeps every row. |
| DisplayPage.SortKey | nextjs/pages/display.js:74-83 | The compared value is never placed last. By "company" it orders as the string `<` on companies; otherwise as `<` on ratings, with null as 0. |
| DisplayPage.SortSp500 | nextjs/pages/display.js:74-83 | The sorted rows are a permutation, ordered by company or rating (null as 0); descending for any direction but "asc". |
| DisplayPage.SortedOrder | nextjs/pages/display.js:74-83 | Rows with distinct keys are increasing under "asc" and decreasing otherwise. |
| DisplayPage.Chart | nextjs/pages/display.js:86-97 | One label and one price per sorted row, position by position. |
| DisplayPage.ChartShowsMatches | nextjs/pages/display.js:69-97 | Every charted label matches the search, and its point is the price of a listed row with that company. |
| AdminUsers.SortById | nextjs/pages/admin/users.js:54 | Sorting the fetched array in place leaves it ascending by `user_id` and a permutation of the original. |
| AdminUsers.SinkInto | nextjs/pages/admin/users.js:54 | One insertion step grows the sorted prefix by one and keeps the multiset. |
| AdminUsers.Swap | nextjs/pages/admin/users.js:54 | An exchange of two entries leaves every other entry unchanged and keeps the multiset. |
| AdminUsers.ApplyUpdate | nextjs/pages/admin/users.js:89-93 | Same length; each entry with the updated id is replaced by the server's copy and every other entry is kept. |
| AdminUsers.UpdateKeepsOrder | nextjs/pages/admin/users.js:89-93 | An update keeps an id-sorted list sorted, and repeating it changes nothing more. |
| AdminUsers.EditSubmit | nextjs/pages/admin/users.js:71-102 | No edited user or a failed request leaves the list unchanged; otherwise the server's answer is applied. |
| AdminUsers.RemoveUser | nextjs/pages/admin/users.js:127 | The remaining users are an in-order subsequence without the id, keeping every other user. |
| AdminUsers.RemoveAfterUpdate | nextjs/pages/admin/users.js:89-127 | Deleting a user after updating it gives the same list as deleting it directly. |
| AdminUsers.Truthy | nextjs/pages/admin/users.js:116 | A selected id is truthy exactly when it is present and not 0. |
| AdminUsers.DeleteConfirm | nextjs/pages/admin/users.js:115-138 | A falsy selected id (null or 0) or a failed request leaves the list unchanged. Otherwise the list is `RemoveUser` of that id: no user with it remains and every other user stays, in order. |
| AdminUsers.SearchUsers | nextjs/pages/admin/users.js:141-147 | The shown users are an in-order subsequence holding exactly those whose name or e-mail matches. |
| AdminUsers.SortedByIdAsKey | nextjs/pages/admin/users.js:54 | Ascending by id coincides with sorted under the numeric id key. |
| AdminUsers.SearchKeepsOrder | nextjs/pages/admin/users.js:54-147 | Searching the id-sorted list leaves it sorted by id. |
| AdminUsers.StatusLabel | nextjs/pages/admin/users.js:214 | The label is "Admin" exactly for status 1, and "User" otherwise. |
| Forum.FilterPosts | nextjs/pages/Forum.js:240-242 | The shown posts are an in-order subsequence holding exactly the posts whose title matches. |
| Forum.EmptySearchShowsAllPosts | nextjs/pages/Forum.js:240-242 | An empty search shows every post. |
| Forum.PostAccepted | nextjs/pages/Forum.js:97-102 | A post or edit passes the guard exactly when title and content are both non-empty. |
| Forum.Toggled | nextjs/pages/Forum.js:156-161 | A toggle flips one post's flag (undefined reads as false) and keeps every other entry. |
| Forum.ToggleTwiceRestores | nextjs/pages/Forum.js:156-161 | Toggling the same post twice restores every flag. |
| Forum.ReplyRejectedAsWritten | nextjs/pages/Forum.js:125-130 | The written guard rejects only a box that shows "", and never one with no entry. |
| Forum.ReplyRejected | nextjs/pages/Forum.js:125-130 | The intended guard rejects exactly a box with no entry or an empty one. |
| Forum.ReplyGuardAsWrittenMissesUntyped | nextjs/pages/Forum.js:125-130 | A reply box never typed in shows "" but passes the written guard. |
| Forum.ReplyGuardCorrected | nextjs/pages/Forum.js:125-130 | The intended guard rejects all the written one rejects; it lets a reply through exactly when the stored text is non-empty. |
| Forum.CanEdit | nextjs/pages/Forum.js:412 | The edit control is offered exactly to an admin or to the post's author. |
| Forum.WithoutUserIdOnlyAdminsEdit | nextjs/pages/Forum.js:412 | With the user id undefined, only admins are offered the edit control. |
| Forum.ForumView.constructor | nextjs/pages/Forum.js:33-49 | The page starts with empty fields, closed boxes, no edit mode and empty maps. |
| Forum.ForumView.HandlePostSubmit | nextjs/pages/Forum.js:96-122 | A request is sent exactly when title and content are both non-empty. Success clears and closes the box; nothing else changes. |
| Forum.ForumView.ReplyInputChange | nextjs/pages/Forum.js:152-154 | Sets one post's reply text and keeps every other post's. |
| Forum.ForumView.HandleReplySubmit | nextjs/pages/Forum.js:124-150 | With the intended guard: a non-empty stored text is sent. Success empties that post's box and closes it; nothing else changes. |
| Forum.ForumView.ToggleReplyField | nextjs/pages/Forum.js:156-161 | Flips one post's reply box; nothing else changes. |
| Forum.ForumView.ToggleEditField | nextjs/pages/Forum.js:163-173 | Leaves edit mode on the post being edited; otherwise enters it with that post's title and content. |
| Forum.ForumView.HandleEditPost | nextjs/pages/Forum.js:189-214 | A request is sent exactly when both edit fields are non-empty; success leaves edit mode. |
| Forum.ForumView.FetchReplies | nextjs/pages/Forum.js:216-229 | Shown replies are hidden with no request. Hidden ones are requested, and on success stored and shown. |
| SessionStore.BoolText | nextjs/store/useBearStore.js:13 | A boolean is written as "true" exactly when it is true. |
| SessionStore.Restored | nextjs/store/useBearStore.js:24-30 | On load, a flag is set exactly when its key holds "true"; the username is the stored one or null. |
| SessionStore.StoredLogin | nextjs/store/useBearStore.js:11-13 | Login adds the three keys and keeps every other entry. |
| SessionStore.StoredLogout | nextjs/store/useBearStore.js:17-19 | Logout removes the three keys and keeps every other entry. |
| SessionStore.RestoreAfterLogin | nextjs/store/useBearStore.js:9-30 | A reload after login restores the logged-in session with that name and admin flag. |
| SessionStore.RestoreAfterLogout | nextjs/store/useBearStore.js:15-30 | A reload after logout restores a logged-out session, whatever was stored. |
| SessionStore.Store.constructor | nextjs/store/useBearStore.js:3-30 | The store starts logged out with no app name; in a browser the session is the one restored from storage. |
| SessionStore.Store.SetAppName | nextjs/store/useBearStore.js:8 | Sets the app name and keeps the session and the storage. |
| SessionStore.Store.SetLogin | nextjs/store/useBearStore.js:9-14 | Logs in with the name and flag, writes the three keys, and a reload would restore the same session. |
| SessionStore.Store.Logout | nextjs/store/useBearStore.js:15-20 | Logs out, removes the three keys, and a reload would restore the logged-out session. |

## Left out

- HTTP requests, the database writes (SP500SQL.py:205-223), the snackbars, routing and rendering. A request's outcome is a parameter of the handler that sends it.
- The yfinance extraction of the statement and quote figures (SP500SQL.py:97-113) and the ticker lists. The model starts from the extracted figures.
- `info.get("effectiveTaxRate")` returning None while the key is present would make the script raise. The model treats a None tax rate as the 0.21 default.
- The quick ratio and ROA are computed during extraction (SP500SQL.py:111-112). A zero denominator there gives inf or nan (or raises), which is not modelled. Both arrive as already-computed optional figures.
- Floating point: NaN, Infinity, rounding, `parseFloat` of form strings, and `toFixed(2)` on the submitted values. Numbers are exact reals.
- ClientScoring.MarginOfSafety: a zero intrinsic value gives None (and so no rating), where JavaScript would produce NaN or ±Infinity and submit it. The code is followed here, not a fallback to 0.
- Text.Lower: only ASCII letters are lower-cased. Full Unicode case mapping and UTF-16 code units are not modelled.
- Lists.SortByKey: the order of elements with equal keys is engine-dependent in the source. The model fixes one order and claims only permutation and distinct-key order.
- The comparators on mixed key types (a number against a string) are not modelled. Each column has a single key type.
- `fetchHistory`, `fetchLatestPosts` and `fetchUsers` reloads after a change are left out. Only the local list update each handler performs is modelled.
- `handleDeletePost` (nextjs/pages/Forum.js:175-187) only sends a request and reloads, so no list logic is left to model.
- The session store keeps no `user_id`, so the pages read it as undefined. Forum.CanEdit takes it as an `Option`, and Forum.WithoutUserIdOnlyAdminsEdit states the consequence.
- Forum.ForumView.HandleReplySubmit uses the intended reply guard. The written guard is modelled separately under Findings.
- AdminUsers.SortById sorts by insertion with adjacent swaps. The engine's own sort algorithm is not modelled; only its result (sorted by id, a permutation) is stated.

## Findings

| source | as written | input that shows it | evidently intended | confidence | as-written member | corrected member |
|---|---|---|---|---|---|---|
| nextjs/pages/Calculator.js:73 | The local delete keeps records whose `record.id` differs from the deleted id, but history records carry `history_id` and no `id`. | Any history containing the deleted record: `undefined !== id` holds, so nothing is removed. | Drop the records whose `history_id` equals the deleted id. | not executed | CalculatorPage.DeleteLocallyAsWrittenKeepsAll | CalculatorPage.DeleteLocallyRemoves |
| nextjs/pages/Forum.js:125-130 | The reply guard rejects only `replyContent[postId] === ""`. | A post whose reply box was never typed in: the entry is undefined, the box shows "", and the empty reply is sent. | Reject whenever the box shows an empty text (`!replyContent[postId]`). | not executed | Forum.ReplyGuardAsWrittenMissesUntyped | Forum.ReplyGuardCorrected |

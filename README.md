# Stock trend analysis: a Dafny model

This project models the logic of a single-script Streamlit dashboard. The dashboard shows technical-analysis indicators for a stock's daily prices, behind a username/password gate. Three parts of `main.py` are modelled and proved:

- **Indicator pipeline** (`trend_app`). It applies the date-range mask to the price table. From the filtered closes it then computes SMA20, EMA20, the rolling standard deviation (STD), the Bollinger bands, the least-squares trend line, and a trend/seasonal/residual decomposition.
  - Prices are exact `real`s.
  - A pandas NaN is `None` in a column of type `seq<Option<real>>`.
  - Modules: `Series` (sums, means, NaN-aware reductions), `Indicators`, `Decomposition`, `TrendLine`, `DateFilter` and `Dashboard`.
- **Credential store** (`Credentials`). The user table holds (email, password) rows and is compared by exact string equality. Login is a pairwise match. Signup rejects an existing email first, then a password mismatch, and otherwise appends one row. A seed administrator row is written when the file is missing. `UserStore` is a class whose `rows` field `save_user` extends.
- **Session state machine** (`Session`). The two session fields `logged_in` and `page` are changed by the form handlers, and routing picks the page from `page` alone.
  - `Step` and `Run` give the meaning of one event and of a sequence of events.
  - The class `App` holds the fields, and its handler methods are proved against `Step`.
  - The main invariant: `logged_in` holds exactly when the page is the dashboard, and the dashboard is reached only through a successful login.

In four places the code does not do what a reader might expect. The model follows the code:

- EMA20 uses pandas' default `adjust=True`. This is the normalised weighted average, not the recursion `EMA[i] = α·x[i] + (1-α)·EMA[i-1]`. `EmaIsNotTheRecursiveForm` shows that the two differ.
- The decomposition's trend is `rolling(30).mean()` with the default `min_periods=30`. So its first 29 entries are NaN, rather than means over the points available so far.
- The date mask does not clamp bounds to the available dates, and it accepts an inverted interval. Both then select nothing.
- The no-data check (`df.empty`) is made on the loaded table, before the mask. So an empty selection is not reported as "no data" (see Findings).

The sample standard deviation needs a square root, which exact reals do not provide. The model takes it as a parameter `root` that satisfies `IsSqrt`: on non-negative reals, `root(v)` is non-negative and squares back to `v`.

## Model

| member | source | states |
|---|---|---|
| `DateFilter.FilterByDate` | main.py:168 | every kept row has `start <= date <= end` and the result is no longer than the table |
| `DateFilter.FilterKeepsExactlyRowsInRange` | main.py:168 | the result is an order-preserving subsequence: an increasing list of row numbers picks it out of the table, and a row is listed iff its date is in the closed interval |
| `DateFilter.InvertedRangeIsEmpty` | main.py:168 | an interval with `start > end` selects nothing, without any error |
| `DateFilter.RangeAfterDataIsEmpty` | main.py:168 | bounds are not clamped: an interval after the last date selects nothing |
| `DateFilter.FilterIsContiguous` | main.py:168 | on a chronological table the selection is one contiguous slice `bars[lo..hi]` |
| `Indicators.RollingMean` | main.py:170 | `rolling(w).mean()` has the input's length and is NaN exactly at the first `w - 1` indices |
| `Indicators.RollingMeanIsWindowMean` | main.py:170 | each defined rolling entry, computed from prefix sums, equals the mean of its `w` trailing closes |
| `Indicators.RollingMeanDefinedCount` | main.py:170 | a series of N >= w closes has exactly N - w + 1 defined rolling means, and a shorter one has none |
| `Indicators.RollingMeanWithinWindow` | main.py:170 | a defined rolling mean lies within any bounds of the closes of its window |
| `Indicators.Sma` | main.py:170 | SMA20 is NaN exactly for the first 19 indices |
| `Indicators.RollingMeanExample` | main.py:170 | closes [1,2,3,4,5] with a 3-point window give [NaN, NaN, 2, 3, 4] |
| `Indicators.RollingMeanFivePointExample` | main.py:170 | the 20-close example series with a 5-point window has four leading NaNs, then 12.2 |
| `Indicators.EwmWeight` | main.py:171 | the total EWM weight is at least 1 once a point has been seen, so EMA20 never divides by zero |
| `Indicators.Ema` | main.py:171 | EMA20 has the input's length and is defined at every index (no warm-up) |
| `Indicators.EmaStartsAtFirstClose` | main.py:171 | EMA20 at index 0 is the first close exactly |
| `Indicators.EmaIsNormalisedWeightedSum` | main.py:171 | EMA20 at `i` is the sum of (1-α)^k·x[i-k] over k <= i, divided by the sum of (1-α)^k, with α = 2/21 (pandas `adjust=True`) |
| `Indicators.EmaWithinRange` | main.py:171 | each EMA20 entry lies within any bounds of the closes up to that index |
| `Indicators.EmaIsNotTheRecursiveForm` | main.py:171 | for closes [0, 21] the adjusted EMA gives 441/40 at index 1, where `RecursiveEma` (EMA[0] = x[0], EMA[i] = α·x[i] + (1-α)·EMA[i-1]) gives 2 |
| `Indicators.SampleVariance` | main.py:172 | the n-1 denominator sample variance of a window is non-negative |
| `Indicators.Std` | main.py:172 | STD has the input's length and, like SMA20, is NaN exactly for the first 19 indices |
| `Indicators.StdIsWindowDeviation` | main.py:172 | each defined STD entry is non-negative and squares to the sample variance of its 20-close window |
| `Indicators.UpperBand` | main.py:173 | UB has one entry per close; `BandsAroundSma` proves where it is defined and that it lies 2·STD above SMA20 |
| `Indicators.LowerBand` | main.py:174 | LB has one entry per close; `BandsAroundSma` proves where it is defined and that it lies 2·STD below SMA20 |
| `Indicators.BandsAroundSma` | main.py:173-174 | UB and LB are defined exactly where SMA20 is; there `UB - SMA == SMA - LB`, `LB <= SMA <= UB`, and `(UB - SMA)²` is 2² times the sample variance of the 20-close window, so the half-width is 2·STD |
| `Decomposition.TrendComponent` | main.py:215 | the trend has the input's length and is NaN exactly for the first 29 indices |
| `Decomposition.SeasonalComponent` | main.py:216 | seasonal has one entry per close; `TrendPlusSeasonalIsClose` proves its NaN positions and that trend + seasonal is the close |
| `Decomposition.ResidualComponent` | main.py:217 | the residual has one entry per close; `ResidualDefinedWhereSeasonal`, `ResidualIsShiftedSeasonal` and `ResidualsSumToZero` carry its properties |
| `Decomposition.ResidualIsShiftedSeasonal` | main.py:217 | where defined, the residual is the seasonal component less one and the same constant; with the zero sum this fixes every residual value |
| `Decomposition.TrendPlusSeasonalIsClose` | main.py:215-216 | seasonal is defined exactly where trend is; there trend is the mean of the 30 trailing closes and `trend + seasonal == close` |
| `Decomposition.ResidualDefinedWhereSeasonal` | main.py:216-217 | the residual is defined exactly where the seasonal component is, and nowhere for fewer than 30 closes (the seasonal mean is then NaN) |
| `Decomposition.ResidualsSumToZero` | main.py:217 | the defined residuals sum to zero |
| `TrendLine.PositionsSpread` | main.py:199 | two or more positions `0..N-1` have a positive spread, so the OLS slope is well defined |
| `TrendLine.LinearTrend` | main.py:199-200 | the fitted line exists iff there are at least two closes, and then has one value per close |
| `TrendLine.FitOfLineIsThatLine` | main.py:199-200 | closes that lie on a line c·x + d are fitted with slope c and intercept d |
| `TrendLine.RefitIsIdempotent` | main.py:199-200 | fitting the fitted line again returns the same line |
| `TrendLine.FitKeepsCrossDeviations` | main.py:199-200 | the fitted line's co-deviation with the positions equals the closes' (second normal equation); with the zero residual sum this singles out the least-squares line |
| `TrendLine.ResidualsOfFitSumToZero` | main.py:199-200 | the fitted line has the same total as the closes (residuals sum to zero) |
| `Dashboard.Compute` | main.py:168-217 | every column derived from the selected rows has one entry per row; the trend line exists iff there are two rows or more |
| `Dashboard.TrendApp` | main.py:156-168 | the no-data state is shown iff the loaded table is empty; otherwise the charts are computed over the date-filtered rows |
| `Dashboard.EmptySelectionReachesFit` | main.py:158-200 | a non-empty table whose selection is empty (an inverted range, or one holding no trading day) passes the no-data check and reaches the line fit with zero rows, where the fit has no value |
| `Dashboard.GuardedTrendApp` | main.py:158-168 | with the check after the mask, the no-data state is shown iff the selection is empty, and charts always have rows |
| `Dashboard.GuardedAgreesOnNonEmptySelection` | main.py:158-168 | the guarded pipeline differs from the pipeline as written exactly when the loaded table is non-empty and the selection is empty |
| `Credentials.AnyMatch` | main.py:94 | login succeeds iff some stored row has both the given email and the given password |
| `Credentials.EmailTaken` | main.py:121 | an email is taken iff some stored row has it |
| `Credentials.MatchIsLookup` | main.py:94 | with distinct emails, the pairwise match equals looking up the email's password and comparing it |
| `Credentials.SignupVerdict` | main.py:121-124 | the verdict is UserExists iff some row has the email; PasswordMismatch only when the passwords differ; Created iff the email is new and the passwords match |
| `Credentials.AfterSignup` | main.py:121-128 | the table after a signup is either unchanged or the old table plus exactly the new pair, and it changes iff the email is new and the passwords match |
| `Credentials.DuplicateEmailRejectedFirst` | main.py:121-122 | an existing email is rejected whatever the two passwords, and the table is unchanged |
| `Credentials.SignupThenLogin` | main.py:121-129 | an accepted signup had matching passwords and a new email; it appends exactly that pair at the end; the pair then logs in, and every pair that logged in before still does |
| `Credentials.SignupKeepsEmailsDistinct` | main.py:121-129 | signup never creates a second row for an email |
| `Credentials.SeedAdmitsOnlyAdmin` | main.py:54-57 | the seeded table admits `admin@gmail.com`/`admin123` and no other pair |
| `Credentials.UserStore.Seeded` | main.py:54-57 | a missing users file yields a table holding only the seed row |
| `Credentials.UserStore.Loaded` | main.py:59-60 | an existing users file is loaded row for row |
| `Credentials.UserStore.Save` | main.py:62-68 | `save_user` appends one row and keeps every earlier row |
| `Session.Route` | main.py:239-244 | routing depends on `page` alone, and the dashboard is drawn iff the page is neither login nor signup |
| `Session.Step` | main.py:92-233 | an event changes something only when its widget is on the routed screen; the table changes only by a signup appending exactly its pair; `logged_in` is set only by a login whose pair is stored (transitions at lines 95-96, 103, 128, 132, 232-233) |
| `Session.StepKeepsLoginConsistent` | main.py:95-233 | every transition (lines 95-96, 103, 128, 132, 232-233) keeps `logged_in <==> page == trend` |
| `Session.RunKeepsLoginConsistent` | main.py:73-77 | from the initial state (`logged_in` false, page login), every sequence of events keeps `logged_in <==> page == trend` |
| `Session.OnlyLoginEntersDashboard` | main.py:94-99 | a step that enters the dashboard is a login whose pair is stored; a failed login changes neither the session nor the table |
| `Session.DashboardOnlyAfterLogin` | main.py:239-244 | whenever the dashboard is drawn, some earlier event was a login, raised on the login page, whose pair was stored at that moment and which took the session to the dashboard |
| `Session.SignupStep` | main.py:119-129 | on the signup page, a new email with matching passwords appends the pair and returns to login; anything else changes nothing |
| `Session.App.constructor` | main.py:73-77 | a new session starts logged out on the login page |
| `Session.App.SubmitLogin` | main.py:92-99 | it returns true iff the pair is stored; on success it is logged in on the trend page, otherwise nothing changes; it agrees with `Step` |
| `Session.App.OpenSignup` | main.py:102-104 | it moves to the signup page and leaves `logged_in` alone |
| `Session.App.SubmitSignup` | main.py:119-129 | it reports the verdict (existing email first, then mismatch); it appends the row and moves to login only on success; it keeps emails distinct; it agrees with `Step` |
| `Session.App.BackToLogin` | main.py:131-133 | it moves to the login page and leaves `logged_in` alone |
| `Session.App.Logout` | main.py:231-234 | it clears `logged_in` and returns to the login page |
| `Session.App.Render` | main.py:239-244 | the screen drawn is `Route(page)`, which is the dashboard iff the page is trend |

## Left out

- Streamlit rendering is not modelled: page config, columns, forms, tabs, buttons, messages, `st.rerun`, and the plotly and line charts (main.py:6-9, 83-133, 176-229). Only the state changes the handlers make are modelled.
- `load_data`, `yf.download` and `st.cache_data` are network I/O (main.py:138-147). The price table is an input sequence, and the ticker selection (main.py:155) only decides which table that is.
- The CSV file I/O is not modelled: `os.path.exists`, `read_csv`, `to_csv`. The user table is in-memory state. Pandas' type inference when the file is read back is not modelled either: for example, an empty password reads back as NaN and an all-digit column as integers.
- The background image (`set_bg_local`, main.py:25-47) is file I/O plus HTML.
- IEEE floating-point rounding is not modelled; arithmetic is exact.
- Indicators.Std: the square root inside `rolling().std()` is the parameter `root`. It is constrained only to be a non-negative square root on non-negative reals.
- TrendLine.LinearTrend: `np.polyfit` is stated by its closed-form least-squares coefficients, not by numpy's numerics. With fewer than two points the model gives no line (`None`), standing for the source's failure there. Zero rows raise `TypeError`. One row puts 0/0 into the scaled design matrix and most likely raises as well (not verified). The exact exception is not modelled.
- Credentials.SignupThenLogin: the pair is read back from the users file by `read_csv`, which turns a password such as "", "NA", "null", "None" or "nan" into NaN. NaN equals no string at main.py:94, so such a pair can never log in, although the model says it does.
- Credentials.SignupKeepsEmailsDistinct: an email such as "", "NA" or "nan" is read back as NaN, so `email in users["email"].values` at main.py:121 misses it and a second signup stores it again. The model keeps emails distinct because it holds the table in memory.
- Dates are day numbers. Pandas timestamps and times of day are not modelled.
- Session.Step: the Logout event is treated as available whenever the dashboard is routed. The source draws that button only after the no-data check passes and every tab has rendered without an exception.
- Session.Page: only the three page values the source ever assigns are modelled. Routing's fall-through for any other string therefore only ever sees "trend".
- Several browser sessions sharing one users file, and any concurrent writes to it, are not modelled.

## Findings

| source | as written | input that shows it | evidently intended | confidence | as-written member | corrected member |
|---|---|---|---|---|---|---|
| main.py:158-200 | the `df.empty` check runs on the loaded table before the date mask, so an empty selection goes on to `np.polyfit` with zero points, which raises | any non-empty price table with a start date after the end date, or a range holding no trading day (a range holding exactly one trading day most likely fails the same way) | an empty selection shows the no-data state | medium, not executed | `Dashboard.EmptySelectionReachesFit` | `Dashboard.GuardedTrendApp` |

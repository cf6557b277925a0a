# Taiwan-stock diagnostic engine, modelled in Dafny

This project models the diagnostic core of a Streamlit dashboard for Taiwan-listed
stocks (`stock_app.py`). For one symbol, `get_stock_analysis` downloads six months of
daily bars for the `.TW` listing and the last twelve days of institutional-investor
trades. From these it computes the following, all taken at the latest bar:

- the 5-, 10- and 20-session moving averages of the close;
- the 5-session average volume, in lots of 1000 shares;
- the three-day net buying of foreign investors and investment trusts, and whether
  each of those three days was a net buy;
- a score from 0 to 4 that counts four criteria;
- the bias of the close from the 20-session average.

The page then turns the result into labels: the trend, bias and volume states, the
strong/neutral verdict, the institutional badge and the diagnosis table. A scan
feature splits a comma-separated list of symbols and shortlists those that score at
least 3.

Everything is modelled as total functions with lemmas about them, in the same pure
form as the source's pandas expressions:

- `wrappers.dfy`, module `Wrappers`: `Option`. It stands for a pandas NaN and for the
  `None` result.
- `rolling.dfy`, module `Rolling`: `rolling(n).mean()`, both the whole column and its
  latest entry. Also the sum and mean facts the proofs need: sliding window, bounds,
  positivity, zero, scaling.
- `flow.dfy`, module `InstitutionalFlow`: the institutional table. It is grouped by
  date, netted over `Foreign_Investor` and `Investment_Trust`, and reduced with
  `tail(3)` to the three-day total and the streak flag.
- `diagnosis.dfy`, module `Diagnosis`: `get_stock_analysis` as `Analyze`, which works
  on data already downloaded, and as `GetStockAnalysis`, which takes the two providers
  as function parameters.
- `dashboard.dfy`, module `Dashboard`: the page's decision rules, Python's
  `str.split` and `str.strip`, the scan list, the shortlist, and the volume-ratio
  finding.

How the model represents the source:

- Prices are exact `real`s and volumes are `nat` share counts.
- A NaN is `None`, and a comparison with an undefined side is false (`Above`), as
  Python's `>` is on NaN.
- An empty download returns `None` through the explicit check at line 21. The bare
  `except` turns every other failure into `None`: the price download raising, the
  login or query raising, and the division by a zero MA20 in the bias. In the model
  each of these gives `None`, as `Diagnosis.NoneIff` states.
- Dates are day ordinals. The source's ISO date strings sort the same way.

Points where the code does less than a reader might expect, and the model follows the code:

- Only the `.TW` listing is tried. There is no fallback venue and no result cache
  (`Diagnosis.OnlyPrimaryListing`).
- Each trend is two-way (bullish or bearish). There is also no "choppy" state.
- A failed institutional query or login fails the whole result. It is not a degraded
  result.
- Short history does not signal an error. The undefined average makes its criterion
  fail.
- The volume ratio is not guarded (see Findings).

## Model

| member | source | states |
|---|---|---|
| `Rolling.MeanOfLast` | stock_app.py:24-31 | the latest value of `rolling(n).mean()`; see LatestOfRolling, SlideWindow and MeanOfLastOnlyWindow |
| `Rolling.RollingMean` | stock_app.py:24-27 | the whole `rolling(n).mean()` column, as long as its input; see RollingMeanAt and RollingAppend |
| `Rolling.RollingMeanAt` | stock_app.py:24-27 | the first n-1 entries of a rolling(n) column are undefined; every later entry i is the mean of the n values ending at i |
| `Rolling.LatestOfRolling` | stock_app.py:24-30 | the latest entry of the column is the mean of the last n values and is defined exactly when there are at least n values |
| `Rolling.RollingAppend` | stock_app.py:24-27 | appending a bar leaves all earlier entries of the column unchanged and adds the new window's mean |
| `Rolling.MeanOfLastOnlyWindow` | stock_app.py:24-30 | the latest moving average depends only on the last n values |
| `Rolling.SlideWindow` | stock_app.py:26 | after one more value the n-window mean equals the old mean with the oldest value replaced by the new one, divided by n |
| `Rolling.MeanBounds` | stock_app.py:24-27 | a moving average lies between the smallest and largest value of its window |
| `Rolling.MeanPositive` | stock_app.py:26 | a moving average of positive closes is positive |
| `Rolling.MeanZero` | stock_app.py:27 | a moving average of non-negative volumes is zero exactly when every volume in the window is zero |
| `Rolling.MeanScale` | stock_app.py:31 | converting the volumes to lots before or after averaging gives the same average |
| `InstitutionalFlow.Dates` | stock_app.py:39 | the group keys are strictly ascending and are exactly the dates that have at least one row |
| `InstitutionalFlow.Net` | stock_app.py:39 | the per-date value of the groupby lambda; see NetOnlySmartMoney, NetWithoutSmartRows and NetConcat |
| `InstitutionalFlow.Daily` | stock_app.py:39 | the `daily` series, one net per date with rows; see TailOfDaily and WindowIsLatestDates |
| `InstitutionalFlow.Total3d` | stock_app.py:40 | `daily.tail(3).sum() / 1000`; see WindowIsLatestDates and ConsecutiveImpliesPositiveTotal |
| `InstitutionalFlow.Consecutive` | stock_app.py:41 | the streak test of line 41; see ConsecutiveIff and OtherCategoriesOnLatestDateBreakStreak |
| `InstitutionalFlow.Aggregate` | stock_app.py:37-41 | the flow summary with the empty-table guard; see AggregateEmpty and ConsecutiveImpliesPositiveTotal |
| `InstitutionalFlow.NetOnlySmartMoney` | stock_app.py:39 | a date's net equals the net over only the Foreign_Investor and Investment_Trust rows; other categories never change it |
| `InstitutionalFlow.NetWithoutSmartRows` | stock_app.py:39 | a date without smart-money rows has net 0 |
| `InstitutionalFlow.NetConcat` | stock_app.py:39 | nets are additive over the rows: the net of two tables together is the sum of their nets |
| `InstitutionalFlow.AggregateEmpty` | stock_app.py:37-38 | an empty table gives total 0 and no streak, the same values the general formula gives |
| `InstitutionalFlow.WindowIsLatestDates` | stock_app.py:39-40 | the three-day window holds the min(3, #dates) latest dates that have rows; every other date with rows is earlier, and dates without rows are skipped, not zero-filled |
| `InstitutionalFlow.ConsecutiveIff` | stock_app.py:41 | the streak flag holds iff there are at least three dates and each of the three latest has a strictly positive net |
| `InstitutionalFlow.ConsecutiveImpliesPositiveTotal` | stock_app.py:40-41 | the streak flag implies a strictly positive three-day total |
| `InstitutionalFlow.OtherCategoriesOnLatestDateBreakStreak` | stock_app.py:39-41 | a latest date whose rows are all of other categories still forms a group with net 0 and so breaks the streak |
| `Diagnosis.Analyze` | stock_app.py:18-49 | `get_stock_analysis` on downloaded data; see NoneIff, ScoreCountsCriteria, ShortHistory, BiasSign, EmptyFlowTable and PositiveClosesGiveResult |
| `Diagnosis.GetStockAnalysis` | stock_app.py:20-35 | the engine with the providers as parameters, asking only for sid + ".TW"; see OnlyPrimaryListing |
| `Diagnosis.Criteria` | stock_app.py:44 | the four criteria of the score, in table order; see ScoreCountsCriteria and RowsMatchScore |
| `Diagnosis.CountTrue` | stock_app.py:44 | the count is the number of positions whose flag holds; so it is at most their number, equals it iff all hold, and is 0 iff none holds |
| `Diagnosis.ScoreCountsCriteria` | stock_app.py:44 | the score is the number of true criteria among close > MA20, MA5 > MA10, volume > VMA5 and total > 0, so it lies in 0..4 |
| `Diagnosis.VolumeCriterionScaleFree` | stock_app.py:31-44 | the volume criterion on lots is the same as on raw shares, and the VMA5 in lots is the mean of the last five volumes in lots |
| `Diagnosis.NoneIff` | stock_app.py:19-49 | the result is None exactly when the download raised or was empty, the institutional query failed, or MA20 is 0 |
| `Diagnosis.PositiveClosesGiveResult` | stock_app.py:26-47 | with positive closes, a non-empty download and a successful query always give a result, and a defined MA20 is positive |
| `Diagnosis.ShortHistory` | stock_app.py:24-44 | each average and the bias are defined iff there are enough bars; an undefined average fails its criterion; with fewer than 5 bars the score is at most 1 |
| `Diagnosis.EmptyFlowTable` | stock_app.py:37-44 | an empty institutional table gives no streak, total 0, a failing criterion 4 and a score of at most 3 |
| `Diagnosis.ConsecutiveImpliesCriterionFour` | stock_app.py:40-44 | in every result the streak flag implies that criterion 4 passes |
| `Diagnosis.BiasSign` | stock_app.py:47 | with MA20 > 0 the bias is defined, bias > 0 iff close > MA20, and bias > 10 iff close > 1.1 × MA20 |
| `Diagnosis.ZeroVolumeMean` | stock_app.py:27-31 | a zero VMA5 means that today and the four sessions before it traded nothing |
| `Diagnosis.OnlyPrimaryListing` | stock_app.py:20 | two price providers that agree on the ".TW" ticker give the same result; no other venue is consulted |
| `Dashboard.ShortTrend` | stock_app.py:84 | the short trend label; see RowsMatchScore |
| `Dashboard.LongTrend` | stock_app.py:85 | the long trend label; see RowsMatchScore |
| `Dashboard.BiasStateOf` | stock_app.py:87 | the bias state label; see OverheatedIff |
| `Dashboard.VolumeStateOf` | stock_app.py:93 | the volume state label; see SurgeImpliesVolumeCriterion and VolumeRatioAgrees |
| `Dashboard.VerdictOf` | stock_app.py:105-106 | the strong/neutral verdict; see ShortlistIsStrongVerdict |
| `Dashboard.FlowBadgeOf` | stock_app.py:103 | the row-4 badge with the streak first; see BadgeAgreesWithCriterionFour |
| `Dashboard.RowStatus` | stock_app.py:99-104 | the status column of the diagnosis table; see RowsMatchScore |
| `Dashboard.RowsMatchScore` | stock_app.py:99-104 | the diagnosis table passes exactly on the four criteria, so the number of passing rows equals the score |
| `Dashboard.BadgeAgreesWithCriterionFour` | stock_app.py:103 | the streak and net-buy badges appear iff criterion 4 passes, and the net-sell badge appears iff it fails |
| `Dashboard.SurgeImpliesVolumeCriterion` | stock_app.py:93 | the "volume surge" label implies the volume criterion |
| `Dashboard.OverheatedIff` | stock_app.py:87 | with MA20 > 0 the state is "overheated" iff the close is more than 10% above MA20 |
| `Dashboard.Split` | stock_app.py:60 | str.split yields at least one piece and no piece contains the separator |
| `Dashboard.JoinSplit` | stock_app.py:60 | joining the pieces gives the text back, and there is one piece more than there are commas |
| `Dashboard.SplitJoin` | stock_app.py:60 | splitting undoes joining for pieces without the separator |
| `Dashboard.StripSpec` | stock_app.py:60 | strip returns a contiguous slice of the text with only whitespace removed before and after it, leaves no whitespace at either end, is the identity exactly on text without such whitespace, and is idempotent |
| `Dashboard.Strip` | stock_app.py:60 | Python's `str.strip()`; see StripSpec |
| `Dashboard.ScanList` | stock_app.py:60 | the list comprehension of line 60; see ScanListSpec, ScanListOfJoin and ScanListExample |
| `Dashboard.ScanListSpec` | stock_app.py:60 | the scan list has one entry per comma-separated field; each entry is that field stripped, with no comma and no surrounding whitespace |
| `Dashboard.ScanListOfJoin` | stock_app.py:60 | a text made of comma-free fields joined by commas scans to exactly those fields, each stripped |
| `Dashboard.ScanListExample` | stock_app.py:60 | "2330, 2317" parses to the symbols "2330" and "2317" |
| `Dashboard.Shortlist` | stock_app.py:62-66 | the shortlist holds exactly the listed symbols whose analysis exists with score ≥ 3, each with its score and streak flag, and is never longer than the list |
| `Dashboard.ShortlistSingle` | stock_app.py:62-66 | a one-symbol list yields its candidate if the symbol is admitted and nothing otherwise |
| `Dashboard.ShortlistConcat` | stock_app.py:62-66 | the shortlist of a concatenation is the concatenation of the shortlists, so the model keeps list order and one candidate per admitted entry (the page raises on an admitted duplicate, see Left out) |
| `Dashboard.ShortlistLength` | stock_app.py:62-66 | the number of buttons equals the number of admitted entries of the list |
| `Dashboard.Scan` | stock_app.py:58-69 | the scan loop with the providers as parameters; see ShortlistIsStrongVerdict |
| `Dashboard.ShortlistIsStrongVerdict` | stock_app.py:64-106 | a listed symbol is shortlisted iff its own diagnosis shows the strong verdict (same threshold 3); a streak mark comes with a passing criterion 4 |
| `Dashboard.VolumeRatioAsWritten` | stock_app.py:93 | the volume-ratio delta as written; see SuspendedStockRaises |
| `Dashboard.SuspendedStockRaises` | stock_app.py:93 | five zero-volume bars give a valid result, on which the volume-ratio delta as written raises |
| `Dashboard.VolumeRatioAgrees` | stock_app.py:93 | the guarded ratio is defined iff VMA5 is; it is > 1 iff the volume criterion holds and > 1.5 iff the surge label shows |

## Left out

- Network access and login: `yf.download` and the FinMind `DataLoader` login and
  queries are external libraries. Their outcomes are parameters (`Option` of the bars
  or of the table).
- The news section (lines 110-122): external queries and rendering only, with no
  rule on the data.
- Wall-clock windows (`period="6mo"`, `datetime.now()` minus 12 or 7 days): ambient
  time. The bars and rows are given as they were downloaded.
- The MultiIndex column flattening (line 22): a pandas layout detail. Bars are given
  as close/volume records.
- The raw `df` and `latest` entries of the returned dictionary: no rule reads them.
- Streamlit: `session_state` initialisation and writes, widgets, buttons, `st.rerun`,
  `st.status`, HTML tables and number formatting (`:.2f`, `:.1f`, `:.0f`) are UI shell
  with no decision logic. The main diagnosis symbol is not stripped; this is not
  modelled either.
- `Dashboard.Shortlist`: an admitted symbol listed twice (say "2330, 2330") gives two
  candidates in the model. The page instead creates a second `st.button` with the
  same key `btn_2330` (line 67). Streamlit raises its duplicate-widget error there,
  outside any `try`, so the scan stops and the rest of the page is not rendered.
  Widget keys are Streamlit state and are not modelled.
- Floating point: prices and volumes are exact reals, so IEEE rounding is not
  modelled. NaN is `None`.
- The exception taxonomy: every failure inside `get_stock_analysis` is the single
  `None` outcome.
- A fallback venue, a result cache and a three-way trend are not modelled because the
  code has none of them.
- `Dashboard.ScanListExample`: shown on two symbols of the session's default list,
  not on all eight, to keep the concrete proof small.

## Findings

| source | as written | input that shows it | evidently intended | confidence | as-written member | corrected member |
|---|---|---|---|---|---|---|
| stock_app.py:93 | the volume-ratio delta divides `vol_today` by `v_ma5` with no guard, outside any `try` | five daily bars with close 10.0 and volume 0 (a suspended stock) and an empty institutional table: the engine returns a result with `v_ma5 = 0`, and rendering it raises ZeroDivisionError | a guarded ratio that reads 1 ("normal") when the average is zero | medium, not executed | `Dashboard.SuspendedStockRaises` | `Dashboard.VolumeRatioAgrees` |

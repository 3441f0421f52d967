# Currency exchange forecaster: the prediction pipeline in Dafny

The application chooses the best days to exchange currency before a trip. It
downloads five years of daily closing rates for a currency pair and fits a
trend-and-seasonality forecasting model (Prophet). It projects that model up
to the travel date and reports the three days between tomorrow and the travel
date with the highest predicted rate.

This project models that pipeline, `get_prediction`, as one pure function,
`Forecasting.GetPrediction`. It also models the web page's handling of a
submitted form around it, `Request.Submit`. The source has two near-identical
copies of `get_prediction`, in `backend.py` and `app.py`. They differ only in
the wording of the not-enough-history failure (backend.py:29, app.py:50). One
function serves both, and a `Copy` argument selects that wording.
`Forecasting.CopiesAgree` shows that the model's two instances differ only
there.

Modules, leaf first:

- `Basics`: `Option`, and the subsequence relation.
- `Series`: the downloaded frame, made of rows whose Date and Close cells may
  be missing, plus a flag for whether a Close column exists. It also holds
  the validity gate (`Unusable`) and the cleaning step (`Clean`). Cleaning
  drops rows with a missing cell (`DropMissing`), then drops repeated dates,
  keeping the first row of each (`DropDuplicateDates`).
- `Clock`: moments in seconds and dates as day numbers. It gives today's date
  (`Today`), truncation to midnight (`Normalize`) and the horizon in whole
  days (`Horizon`).
- `Ranking`: the future mask, which keeps dates after today up to the travel
  date, both compared at midnight (`InMask`, `Window`). It also holds the
  ranking by predicted rate, highest first (`SortDescending`), and the first
  three rows (`Top`).
- `Forecasting`: the pipeline with its failure reasons (`Reason` and their
  texts in `Text`). It also holds the Python return shape
  `(best_days, forecast, model)` / `(None, message, None)` (`AsTriple`).
- `Request`: the country-to-currency table, the same-country refusal, the
  pair symbol `base + quote + "=X"` with its parser, and the branch that
  shows either the results or "Prediction failed. Reason: ...".

Inputs that the model takes as parameters:

- The download is a `Frame` value. `Request.Submit` receives it as a function
  from the pair symbol to a frame.
- Fitting and projecting is a `Forecaster`, a function from the training
  table and the horizon to the forecast rows or the text of the exception it
  raised.
- The clock is a `now: Instant` argument.

Two points of the code's behaviour deserve a note:

- The code has no check that the travel date is in the future. A travel date
  of today or earlier still reaches the window filter. No forecast row passes
  it, so the pipeline fails with "Could not generate a forecast for the
  selected period." (`Forecasting.PastTravelFails`).
- The code sorts with pandas' default quicksort, which is not stable, so no
  tie order among equal predictions is promised. The model's insertion sort
  puts each row in front of later rows with an equal prediction, so ties keep
  forecast order. That is one of the orders the source's sort may produce.
  Nothing proved depends on the order among equal predictions.

## Model

| member | source | states |
|---|---|---|
| `Forecasting.GetPrediction` | backend.py:10-56 | no contract of its own; its outcomes are given exactly by `NoValidDataExactly`, `NotEnoughDataExactly`, `UnexpectedErrorExactly`, `EmptyPeriodExactly` and `SuccessBest` |
| `Forecasting.Text` | backend.py:24-56 | no contract of its own; the literal messages of backend.py:24, 29, 47 and 56, and of app.py:50 for the app copy's history failure |
| `Series.Unusable` | backend.py:23 | no contract of its own; the gate condition, characterised by `NoValidDataExactly` |
| `Series.DropMissing` | backend.py:26 | no more rows than the input; `DropMissingMember` and `DropMissingAppend` characterise `dropna()` |
| `Series.DropDuplicateDates` | backend.py:26 | no contract of its own; `DropDuplicatesDates`, `DropDuplicatesDistinct`, `DropDuplicatesSubsequence`, `DropDuplicatesKeepsFirst` and `DropDuplicatesFirstOrder` characterise `drop_duplicates(subset=['ds'])` |
| `Series.Clean` | backend.py:26 | no contract of its own; `CleanWellFormed` and `CleanKeepsFirstComplete` characterise the cleaned table |
| `Forecasting.NoValidDataExactly` | backend.py:23-24 | the pipeline fails with "Could not find valid data for this currency pair." exactly when the frame is empty, has no Close column, or has no Close value at all, whatever the forecaster does |
| `Series.DropMissingMember` | backend.py:26 | a row survives the missing-value drop exactly when the download holds that date and rate with both cells present |
| `Series.DropMissingAppend` | backend.py:26 | the missing-value drop works row by row, so it keeps the order of the download |
| `Series.FirstIndex` | backend.py:26 | the index found is that of a row with the date, and no earlier row has it |
| `Series.DropDuplicatesDates` | backend.py:26 | dropping duplicates loses no date (beyond those already seen) and adds none |
| `Series.DropDuplicatesDistinct` | backend.py:26 | after dropping duplicates no two rows share a date |
| `Series.DropDuplicatesSubsequence` | backend.py:26 | the rows kept appear in the input in the same order |
| `Series.DropDuplicatesKeepsFirst` | backend.py:26 | each row kept is the first row of the input with its date |
| `Series.DropDuplicatesFirstOrder` | backend.py:26 | the kept rows come in the order in which their dates first appear in the input |
| `Series.CleanWellFormed` | backend.py:26 | the training table has distinct dates, and each of its rows is a download row with both cells present |
| `Series.CleanKeepsFirstComplete` | backend.py:26 | the training table is an ordered subsequence of the complete rows, covers every date they cover, for each date holds the first complete row (missing values are dropped before duplicates), and lists the dates in the order they first appear among the complete rows |
| `Forecasting.NotEnoughDataExactly` | backend.py:28-29 | the not-enough-history failure happens exactly when the frame passes the gate but fewer than 30 clean rows remain |
| `Forecasting.ForecasterOnlyAtHorizon` | backend.py:28-38 | with 30 or more clean rows (30 included) the threshold passes; the forecaster is consulted only on the clean table and the horizon `travel - today`, so two forecasters that agree there give the same answer |
| `Clock.Today` | backend.py:36 | today's date is the day whose midnight is at or before `now` and whose next midnight is after it |
| `Clock.Horizon` | backend.py:36 | the horizon is the number of whole days between today's midnight and the travel date's midnight, the two moments the mask compares |
| `Forecasting.UnexpectedErrorExactly` | backend.py:55-56 | an exception from fitting or projecting becomes the unexpected-error failure carrying its text, and no other path produces that failure |
| `Clock.Normalize` | backend.py:41 | the normalized moment is the midnight of its day: at or before the moment and less than a day earlier |
| `Clock.NormalizeMidnight` | backend.py:42 | normalizing the travel date's midnight leaves it unchanged |
| `Ranking.InMask` | backend.py:41-43 | no contract of its own; the mask on midnights, shown by `MaskIsDayWindow` to compare dates |
| `Ranking.Window` | backend.py:43-44 | no contract of its own; `WindowMember`, `WindowAppend` and `WindowSubsequence` characterise `forecast.loc[future_mask]` |
| `Ranking.MaskIsDayWindow` | backend.py:41-44 | the mask on midnights holds exactly for dates after today up to the travel date, and so exactly for dates 1 to `horizon` days ahead |
| `Ranking.WindowMember` | backend.py:43-44 | a row is in the window exactly when it is a forecast row dated after today and not after the travel date |
| `Ranking.WindowAppend` | backend.py:43-44 | the mask is applied row by row: the window of a concatenation is the concatenation of the windows, so every copy of a kept row stays, in forecast order |
| `Ranking.WindowSubsequence` | backend.py:44 | the window keeps the forecast's order |
| `Ranking.PastTravelEmptyWindow` | backend.py:41-44 | if the travel date is today or earlier, the window is empty |
| `Forecasting.EmptyPeriodExactly` | backend.py:46-47 | the empty-period failure happens exactly when the forecaster returns rows and none of them falls after today up to the travel date |
| `Forecasting.PastTravelFails` | backend.py:36-47 | a travel date of today or earlier always fails, and with the empty-period text whenever the forecaster returns rows |
| `Ranking.Insert` | backend.py:50 | inserting adds exactly the one row to the multiset of rows |
| `Ranking.InsertSorted` | backend.py:50 | inserting into a sequence ranked highest-first keeps it ranked |
| `Ranking.SortDescending` | backend.py:50 | the sort is a permutation of the window and is non-increasing in predicted rate |
| `Ranking.Head` | backend.py:50 | `head(n)` is a prefix of at most `n` rows, and it is the whole sequence when it has fewer than `n` rows |
| `Ranking.RankedSplit` | backend.py:50 | in a ranked sequence, no row after the first `m` predicts more than any of the first `m` |
| `Ranking.TopLength` | backend.py:50 | the top has `min(3, |window|)` rows |
| `Ranking.TopSplit` | backend.py:50 | the window's multiset is the top's plus that of the rest of the ranking |
| `Ranking.TopDominates` | backend.py:50 | no row of the window left out predicts more than any row returned |
| `Ranking.Top` | backend.py:50 | no contract of its own; `TopBest` and `TopInWindow` characterise `sort_values(by='yhat', ascending=False).head(3)` |
| `Ranking.TopBest` | backend.py:50 | the top three have `min(3, |window|)` rows, are a sub-multiset of the window, are ranked highest first, and dominate every row left out |
| `Ranking.TopInWindow` | backend.py:43-50 | every row of the top is a forecast row after today and up to the travel date |
| `Forecasting.SuccessBest` | backend.py:10-56 | on success: the gate passed; the model was fitted on the clean table (at least 30 rows, distinct dates) and projected by the horizon; the forecast is what it returned; the best days are 1 to 3 rows of the window, ranked and dominating the rows left out |
| `Forecasting.AsTriple` | backend.py:53-56 | a success is returned as `(best_days, forecast, model)` with exactly its best rows, forecast table and model; a failure as `(None, message, None)` carrying its reason's text; the first component is present exactly on success |
| `Forecasting.CopiesAgree` | app.py:37-69 | the web application's copy gives the library copy's answer, except that its not-enough-history failure has its own wording |
| `Request.CodeLength` | app.py:105-108 | every currency code of the table has three letters |
| `Request.CurrencyInjective` | app.py:105-108 | different countries map to different currency codes |
| `Request.PairSymbol` | app.py:122 | the symbol is the base code, then the quote code, then `=X` |
| `Request.PairRoundTrip` | app.py:121-122 | parsing the symbol of two three-letter codes gives back the codes |
| `Request.ParsePairSound` | app.py:122 | a symbol that parses is the symbol of the codes it parses to |
| `Request.SameCountryRefused` | app.py:118-119 | identical countries are refused with the same-country error, and the answer depends on neither the download nor the forecaster |
| `Request.AcceptedRequest` | app.py:117-125 | two different countries give two different codes; the pipeline (app copy) runs on the download for `base + quote + "=X"`, and its answer is shown |
| `Request.Submit` | app.py:117-154 | no contract of its own; `SameCountryRefused` and `AcceptedRequest` characterise it |
| `Request.Show` | app.py:127-154 | no contract of its own; `ShowExactly` characterises it |
| `Request.ShowExactly` | app.py:127-154 | results are shown exactly when the first component is present; otherwise the page shows "Prediction failed. Reason: " and the failure's text |

## Left out

- The market-data download is a network call. The model takes its result as
  a `Frame` argument, and `Request.Submit` takes a function from symbol to
  frame. Exceptions raised by the download or by pandas itself, which the
  catch-all handler would also turn into the unexpected-error failure, are
  not modelled.
- Flattening multi-level column headers is a pandas representation detail.
  The frame is modelled directly as rows of optional Date and Close cells.
- Prophet fitting, `make_future_dataframe` and `predict` are a foreign,
  stateful, floating-point library. They become the `Forecaster` argument,
  so nothing is claimed about the forecast's values or its dates
  (for example, one row per day). The fitted model is represented only by
  the training table it was fitted on.
- The clock: the source reads it twice, once for the horizon and once for
  the mask. The model reads it once, as `now`, so a run that straddles
  midnight is not modelled. Moments are local, time-zone naive seconds.
- Forecast dates are day numbers, that is, midnights, as they are for a
  daily history. A forecast timestamp with a time of day is not modelled.
- Tie order in the top three: the sort is not stable in the source, so no
  earliest-date-first tie-break is modelled or proved.
- The 7-day minimum of the date picker is a widget constraint, not pipeline
  logic. The choice of the From and To countries from the table's keys is
  modelled by the `Country` type.
- Email reminders are left out: SMTP, secrets, and date and 4-decimal rate
  formatting. So are the feedback CSV file and the background image. The
  plot itself is left out; only its title, "Forecast for " and the pair, is
  modelled. Every other widget and its wording are left out, apart from the
  failure and same-country messages.
- Rates are modelled as mathematical reals. A NaN or infinite `yhat` from
  the forecaster is not modelled. pandas sorts a NaN last, and the ordering
  that `SortDescending`, `TopBest` and `SuccessBest` state has no meaning
  for such a row.

/**
 * The forecasting pipeline `get_prediction`: validity gate, cleaning, the
 * minimum-history threshold, the fit and projection (an input here), the
 * future window and the top-three selection, with every failure returned as
 * data. The two copies of the pipeline differ only in the text of the
 * not-enough-history failure, so one function serves both.
 */
module Forecasting {
  import opened Basics
  import opened Series
  import opened Clock
  import opened Ranking

  /** Which copy of the pipeline: the library module or the web application's own. */
  datatype Copy = BackendCopy | AppCopy

  /** Fewer cleaned rows than this and no model is fitted. */
  const MIN_HISTORY: nat := 30

  /** Why the pipeline gave no prediction. */
  datatype Reason =
    | NoValidData
    | NotEnoughData(copy: Copy)
    | Unexpected(error: string)
    | EmptyPeriod

  /** The message each reason is reported with; the two copies word the history shortfall differently. */
  function Text(r: Reason): string {
    match r
    case NoValidData => "Could not find valid data for this currency pair."
    case NotEnoughData(BackendCopy) => "Not enough historical data available to make a reliable forecast."
    case NotEnoughData(AppCopy) => "Not enough historical data available for a forecast."
    case Unexpected(e) => "An unexpected error occurred: " + e
    case EmptyPeriod => "Could not generate a forecast for the selected period."
  }

  /**
   * What fitting the model on the training table and projecting it by the
   * horizon gives: the forecast rows, or the text of the exception raised.
   */
  datatype FitOutcome = Forecast(points: seq<Point>) | Raised(error: string)

  /** The forecasting library, seen as a function of the training table and the horizon. */
  type Forecaster = (seq<Row>, int) -> FitOutcome

  /** The fitted model, known by the training table it was fitted on. */
  datatype Model = Model(history: seq<Row>)

  /** The pipeline's answer: the best days with the whole forecast and model, or a reason. */
  datatype Prediction =
    | Success(best: seq<Point>, forecast: seq<Point>, model: Model)
    | Failure(reason: Reason)

  /** The second component of the returned triple: the forecast table or a message. */
  datatype Detail = Table(rows: seq<Point>) | Message(text: string)

  /** The triple the pipeline returns: `(best_days, forecast, model)` or `(None, msg, None)`. */
  function AsTriple(p: Prediction): (t: (Option<seq<Point>>, Detail, Option<Model>))
    ensures t.0.Some? <==> p.Success?
    ensures t.0.None? <==> t.1.Message? && t.2.None?
    ensures p.Success? ==> t == (Some(p.best), Table(p.forecast), Some(p.model))
    ensures p.Failure? ==> t.1 == Message(Text(p.reason))
  {
    match p
    case Success(best, forecast, model) => (Some(best), Table(forecast), Some(model))
    case Failure(reason) => (None, Message(Text(reason)), None)
  }

  /** `get_prediction(ticker, travel_date)`, given what the download returned for the ticker. */
  function GetPrediction(copy: Copy, fetched: Frame, travel: Day, now: Instant, prophet: Forecaster): Prediction
  {
    if Unusable(fetched) then Failure(NoValidData)
    else
      var history := Clean(fetched.rows);
      if |history| < MIN_HISTORY then Failure(NotEnoughData(copy))
      else
        match prophet(history, Horizon(now, travel))
        case Raised(e) => Failure(Unexpected(e))
        case Forecast(points) =>
          var future := Window(points, now, travel);
          if future == [] then Failure(EmptyPeriod)
          else Success(Top(future), points, Model(history))
  }

  // ---------------------------------------------------------------------------
  // The failure paths, each characterised exactly
  // ---------------------------------------------------------------------------

  /** The no-valid-data failure comes exactly from an empty, Close-less or all-missing frame. */
  lemma NoValidDataExactly(copy: Copy, fetched: Frame, travel: Day, now: Instant, prophet: Forecaster)
    ensures GetPrediction(copy, fetched, travel, now, prophet) == Failure(NoValidData)
            <==> Unusable(fetched)
  {
  }

  /** The not-enough-history failure comes exactly from a usable frame with fewer than 30 clean rows. */
  lemma NotEnoughDataExactly(copy: Copy, fetched: Frame, travel: Day, now: Instant, prophet: Forecaster)
    ensures GetPrediction(copy, fetched, travel, now, prophet) == Failure(NotEnoughData(copy))
            <==> !Unusable(fetched) && |Clean(fetched.rows)| < MIN_HISTORY
  {
  }

  /**
   * A usable frame with at least 30 clean rows (exactly 30 included) reaches
   * the forecaster, which is consulted only on the clean table and the horizon
   * from today to the travel date: forecasters that agree there give the same
   * answer.
   */
  lemma ForecasterOnlyAtHorizon(copy: Copy, fetched: Frame, travel: Day, now: Instant, p1: Forecaster, p2: Forecaster)
    requires !Unusable(fetched) && |Clean(fetched.rows)| >= MIN_HISTORY
    requires p1(Clean(fetched.rows), travel - Today(now)) == p2(Clean(fetched.rows), travel - Today(now))
    ensures GetPrediction(copy, fetched, travel, now, p1) == GetPrediction(copy, fetched, travel, now, p2)
    ensures GetPrediction(copy, fetched, travel, now, p1) != Failure(NotEnoughData(copy))
  {
  }

  /** An exception from fitting or projecting becomes the unexpected-error failure, and nothing else does. */
  lemma UnexpectedErrorExactly(copy: Copy, fetched: Frame, travel: Day, now: Instant, prophet: Forecaster, e: string)
    ensures GetPrediction(copy, fetched, travel, now, prophet) == Failure(Unexpected(e))
            <==> !Unusable(fetched) && |Clean(fetched.rows)| >= MIN_HISTORY
                 && prophet(Clean(fetched.rows), Horizon(now, travel)) == Raised(e)
  {
  }

  /** The empty-window failure comes exactly from a projection with no row after today up to the travel date. */
  lemma EmptyPeriodExactly(copy: Copy, fetched: Frame, travel: Day, now: Instant, prophet: Forecaster)
    ensures GetPrediction(copy, fetched, travel, now, prophet) == Failure(EmptyPeriod)
            <==> !Unusable(fetched) && |Clean(fetched.rows)| >= MIN_HISTORY
                 && prophet(Clean(fetched.rows), Horizon(now, travel)).Forecast?
                 && forall p :: p in prophet(Clean(fetched.rows), Horizon(now, travel)).points
                                ==> !(Today(now) < p.ds <= travel)
  {
    if !Unusable(fetched) && |Clean(fetched.rows)| >= MIN_HISTORY {
      match prophet(Clean(fetched.rows), Horizon(now, travel))
      case Raised(e) =>
      case Forecast(points) =>
        var w := Window(points, now, travel);
        if w != [] {
          WindowMember(points, now, travel, w[0]);
        } else {
          forall p | p in points ensures !(Today(now) < p.ds <= travel) {
            WindowMember(points, now, travel, p);
          }
        }
    }
  }

  /** A travel date that is today or earlier always fails; if the projection succeeds, with the empty-window text. */
  lemma PastTravelFails(copy: Copy, fetched: Frame, travel: Day, now: Instant, prophet: Forecaster)
    requires travel <= Today(now)
    ensures GetPrediction(copy, fetched, travel, now, prophet).Failure?
    ensures !Unusable(fetched) && |Clean(fetched.rows)| >= MIN_HISTORY
            && prophet(Clean(fetched.rows), Horizon(now, travel)).Forecast?
            ==> GetPrediction(copy, fetched, travel, now, prophet) == Failure(EmptyPeriod)
  {
    if !Unusable(fetched) && |Clean(fetched.rows)| >= MIN_HISTORY {
      match prophet(Clean(fetched.rows), Horizon(now, travel))
      case Raised(e) =>
      case Forecast(points) => PastTravelEmptyWindow(points, now, travel);
    }
  }

  // ---------------------------------------------------------------------------
  // The success path
  // ---------------------------------------------------------------------------

  /**
   * On success: the model was fitted on the clean table (at least 30 rows, one
   * per date) and projected by the horizon; the forecast is what it returned;
   * the best days are between one and three of its rows after today up to the
   * travel date, highest prediction first, and no row of that window left out
   * predicts more than a returned one.
   */
  lemma SuccessBest(copy: Copy, fetched: Frame, travel: Day, now: Instant, prophet: Forecaster)
    requires GetPrediction(copy, fetched, travel, now, prophet).Success?
    ensures var p := GetPrediction(copy, fetched, travel, now, prophet);
            var window := Window(p.forecast, now, travel);
            && !Unusable(fetched)
            && p.model.history == Clean(fetched.rows)
            && |p.model.history| >= MIN_HISTORY
            && DistinctDates(p.model.history)
            && prophet(p.model.history, Horizon(now, travel)) == Forecast(p.forecast)
            && 1 <= |p.best| == Min(TOP_K, |window|)
            && multiset(p.best) <= multiset(window)
            && NonIncreasing(p.best)
            && (forall x :: x in p.best ==> x in p.forecast && Today(now) < x.ds <= travel)
            && (forall x, y :: x in multiset(window) - multiset(p.best) && y in p.best ==> x.yhat <= y.yhat)
  {
    var history := Clean(fetched.rows);
    var points := prophet(history, Horizon(now, travel)).points;
    CleanWellFormed(fetched.rows);
    TopBest(Window(points, now, travel));
    TopInWindow(points, now, travel);
  }

  // ---------------------------------------------------------------------------
  // The two copies
  // ---------------------------------------------------------------------------

  /** The web application's copy answers as the library's, except for the not-enough-history text. */
  lemma CopiesAgree(fetched: Frame, travel: Day, now: Instant, prophet: Forecaster)
    ensures var b := GetPrediction(BackendCopy, fetched, travel, now, prophet);
            GetPrediction(AppCopy, fetched, travel, now, prophet)
            == if b == Failure(NotEnoughData(BackendCopy)) then Failure(NotEnoughData(AppCopy)) else b
  {
  }
}
